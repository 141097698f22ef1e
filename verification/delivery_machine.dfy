/**
 * Many command-line processes and delivery workers sharing a start lock, an inherited lifetime lock
 * and one readiness record. Every process may die between any two steps; process identities are
 * never reused.
 */
module DeliveryMachine {
  import opened Common

  /** A copy of the file description that holds the lifetime lock. */
  datatype Holder = Cli(cli: nat) | Worker(worker: nat)

  datatype Record = Record(worker: nat, broker: nat)

  datatype CliPhase =
    | Waiting
    | Deciding
    | Looking(holder: nat)
    | Vacant
    | Cleared
    | Launched(child: nat)
    | Reaped(child: nat)
    | CleanedUp

  datatype CliProcess = CliProcess(phase: CliPhase, broker: nat)

  /** `Checked(own)` is a leaving worker that has read the record but not yet acted on it. */
  datatype WorkerPhase = Starting | Ready | Checked(own: bool) | Leaving

  datatype WorkerProcess = WorkerProcess(phase: WorkerPhase, broker: nat)

  /** A successful return: what was asked, what the record said, and the worker relied on. */
  datatype Success = Success(broker: nat, record: Record, relied: nat)

  datatype State = State(
    startOwner: Option<nat>,
    clis: map<nat, CliProcess>,
    workers: map<nat, WorkerProcess>,
    holders: set<Holder>,
    record: Option<Record>,
    last: Option<Record>,
    used: set<nat>,
    successes: seq<Success>)

  const INITIAL: State := State(None, map[], map[], {}, None, None, {}, [])

  datatype Event =
    | Begin(cli: nat, broker: nat)
    | TakeStart(cli: nat)
    | TryLifetime(cli: nat)
    | ReadForReuse(cli: nat)
    | RemoveStale(cli: nat)
    | Spawn(cli: nat, worker: nat)
    | ReadReady(cli: nat)
    | SeeExit(cli: nat)
    | KillChild(cli: nat)
    | RemoveFailed(cli: nat)
    | Leave(cli: nat)
    | Publish(worker: nat)
    | CheckOwn(worker: nat)
    | RemoveOwn(worker: nat)
    | EndWorker(worker: nat)

  predicate CliAt(s: State, c: nat, p: CliPhase) {
    c in s.clis && s.clis[c].phase == p
  }

  predicate WorkerAt(s: State, w: nat, p: WorkerPhase) {
    w in s.workers && s.workers[w].phase == p
  }

  predicate Enabled(s: State, e: Event) {
    match e
    case Begin(c, _) => c !in s.clis
    case TakeStart(c) => CliAt(s, c, Waiting) && s.startOwner.None?
    case TryLifetime(c) => CliAt(s, c, Deciding)
    case ReadForReuse(c) => c in s.clis && s.clis[c].phase.Looking?
    case RemoveStale(c) => CliAt(s, c, Vacant)
    case Spawn(c, w) => CliAt(s, c, Cleared) && w !in s.used
    case ReadReady(c) => c in s.clis && s.clis[c].phase.Launched?
    case SeeExit(c) => c in s.clis && s.clis[c].phase.Launched? && s.clis[c].phase.child !in s.workers
    case KillChild(c) => c in s.clis && s.clis[c].phase.Launched?
    case RemoveFailed(c) => c in s.clis && s.clis[c].phase.Reaped?
    case Leave(c) => c in s.clis
    case Publish(w) => WorkerAt(s, w, Starting)
    case CheckOwn(w) => WorkerAt(s, w, Ready)
    case RemoveOwn(w) => w in s.workers && s.workers[w].phase.Checked?
    case EndWorker(w) => w in s.workers
  }

  function MovedCli(s: State, c: nat, p: CliPhase): State
    requires c in s.clis
  {
    s.(clis := s.clis[c := s.clis[c].(phase := p)])
  }

  function MovedWorker(s: State, w: nat, p: WorkerPhase): State
    requires w in s.workers
  {
    s.(workers := s.workers[w := s.workers[w].(phase := p)])
  }

  /** A process that is gone closes its copies of both locks. */
  function WithoutCli(s: State, c: nat): State {
    s.(clis := s.clis - {c}, holders := s.holders - {Cli(c)},
       startOwner := if s.startOwner == Some(c) then None else s.startOwner)
  }

  function WithoutWorker(s: State, w: nat): State {
    s.(workers := s.workers - {w}, holders := s.holders - {Worker(w)})
  }

  function Succeeded(s: State, c: nat, relied: nat): State
    requires c in s.clis && s.record.Some?
  {
    WithoutCli(s.(successes := s.successes + [Success(s.clis[c].broker, s.record.value, relied)]), c)
  }

  function LastWorker(s: State): nat {
    if s.last.Some? then s.last.value.worker else 0
  }

  function Step(s: State, e: Event): State
    requires Enabled(s, e)
  {
    match e
    case Begin(c, broker) => s.(clis := s.clis[c := CliProcess(Waiting, broker)])
    case TakeStart(c) => MovedCli(s, c, Deciding).(startOwner := Some(c))
    case TryLifetime(c) =>
      if s.holders == {} then MovedCli(s, c, Vacant).(holders := {Cli(c)})
      else MovedCli(s, c, Looking(LastWorker(s)))
    case ReadForReuse(c) =>
      if s.record.Some? && s.record.value.broker == s.clis[c].broker
      then Succeeded(s, c, s.clis[c].phase.holder)
      else MovedCli(s, c, Deciding)
    case RemoveStale(c) => MovedCli(s, c, Cleared).(record := None)
    case Spawn(c, w) =>
      MovedCli(s, c, Launched(w)).(
        workers := s.workers[w := WorkerProcess(Starting, s.clis[c].broker)],
        holders := s.holders + {Worker(w)},
        last := Some(Record(w, s.clis[c].broker)),
        used := s.used + {w})
    case ReadReady(c) =>
      if s.record == Some(Record(s.clis[c].phase.child, s.clis[c].broker))
      then Succeeded(s, c, s.clis[c].phase.child)
      else s
    case SeeExit(c) => MovedCli(s, c, Reaped(s.clis[c].phase.child))
    case KillChild(c) => WithoutWorker(MovedCli(s, c, Reaped(s.clis[c].phase.child)), s.clis[c].phase.child)
    case RemoveFailed(c) => MovedCli(s, c, CleanedUp).(record := None)
    case Leave(c) => WithoutCli(s, c)
    case Publish(w) => MovedWorker(s, w, Ready).(record := Some(Record(w, s.workers[w].broker)))
    case CheckOwn(w) => MovedWorker(s, w, Checked(s.record == Some(Record(w, s.workers[w].broker))))
    case RemoveOwn(w) =>
      MovedWorker(s, w, Leaving).(record := if s.workers[w].phase.own then None else s.record)
    case EndWorker(w) => WithoutWorker(s, w)
  }

  predicate Run(s: State, trace: seq<Event>, t: State)
    decreases |trace|
  {
    if trace == [] then s == t
    else Enabled(s, trace[0]) && Run(Step(s, trace[0]), trace[1..], t)
  }

  // ---- Invariant ----

  /** Only the process holding the start lock has got past waiting for it. */
  ghost predicate Serialized(startOwner: Option<nat>, clis: map<nat, CliProcess>) {
    && (startOwner.Some? ==> startOwner.value in clis)
    && (forall c :: c in clis ==> (clis[c].phase.Waiting? <==> startOwner != Some(c)))
  }

  /** The lifetime lock is held by exactly the live workers and the launcher that acquired it. */
  ghost predicate HeldByWorkers(holders: set<Holder>, workers: map<nat, WorkerProcess>) {
    forall w :: Worker(w) in holders <==> w in workers
  }

  ghost predicate HeldByClis(holders: set<Holder>, clis: map<nat, CliProcess>) {
    forall c :: Cli(c) in holders <==> c in clis && Launching(clis[c].phase)
  }

  predicate Launching(p: CliPhase) {
    p.Vacant? || p.Cleared? || p.Launched? || p.Reaped? || p.CleanedUp?
  }

  /** A live worker is the one spawned last; so is the author of a visible record. */
  ghost predicate Current(
    workers: map<nat, WorkerProcess>, record: Option<Record>, last: Option<Record>, used: set<nat>)
  {
    && (forall w :: w in workers ==> last == Some(Record(w, workers[w].broker)))
    && (record.Some? ==> last == record && forall w :: w in workers ==> !workers[w].phase.Starting?)
    && (last.Some? ==> last.value.worker in used)
  }

  /** What each phase of a launch relies on. */
  ghost predicate Expected(
    p: CliProcess, workers: map<nat, WorkerProcess>, record: Option<Record>, last: Option<Record>)
  {
    match p.phase
    case Looking(holder) => last.Some? && last.value.worker == holder
    case Vacant => workers == map[]
    case Cleared => workers == map[] && record.None?
    case Launched(w) => last == Some(Record(w, p.broker))
    case Reaped(w) => last == Some(Record(w, p.broker)) && workers == map[]
    case CleanedUp => workers == map[] && record.None?
    case _ => true
  }

  ghost predicate Honest(successes: seq<Success>) {
    forall i :: 0 <= i < |successes| ==> successes[i].record == Record(successes[i].relied, successes[i].broker)
  }

  ghost predicate Inv(s: State) {
    && Serialized(s.startOwner, s.clis)
    && HeldByWorkers(s.holders, s.workers)
    && HeldByClis(s.holders, s.clis)
    && Current(s.workers, s.record, s.last, s.used)
    && (s.startOwner.Some? ==> Expected(s.clis[s.startOwner.value], s.workers, s.record, s.last))
    && Honest(s.successes)
  }

  lemma InitialInv()
    ensures Inv(INITIAL)
  {
  }

  lemma SerializedStep(s: State, e: Event)
    requires Serialized(s.startOwner, s.clis) && Enabled(s, e)
    ensures Serialized(Step(s, e).startOwner, Step(s, e).clis)
  {
  }

  lemma WorkersHoldStep(s: State, e: Event)
    requires HeldByWorkers(s.holders, s.workers) && Enabled(s, e)
    ensures HeldByWorkers(Step(s, e).holders, Step(s, e).workers)
  {
  }

  lemma ClisHoldStep(s: State, e: Event)
    requires Serialized(s.startOwner, s.clis) && HeldByClis(s.holders, s.clis) && Enabled(s, e)
    ensures HeldByClis(Step(s, e).holders, Step(s, e).clis)
  {
  }

  /** Nobody but the owner of the start lock holds the lifetime lock as a launcher. */
  lemma Owner(s: State, c: nat)
    requires Serialized(s.startOwner, s.clis) && c in s.clis && !s.clis[c].phase.Waiting?
    ensures s.startOwner == Some(c)
  {
  }

  lemma FreeMeansDead(s: State)
    requires HeldByWorkers(s.holders, s.workers) && s.holders == {}
    ensures s.workers == map[]
  {
    assert forall w :: w in s.workers ==> Worker(w) in s.holders;
  }

  /** A lock that a deciding process finds taken is taken by the worker spawned last. */
  lemma TakenMeansWorker(s: State, c: nat)
    requires Inv(s) && CliAt(s, c, Deciding) && s.holders != {}
    ensures s.last.Some? && s.last.value.worker in s.workers
  {
    Owner(s, c);
    var h :| h in s.holders;
    match h
    case Cli(d) => Owner(s, d);
    case Worker(w) => assert w in s.workers;
  }

  lemma CurrentStep(s: State, e: Event)
    requires Inv(s) && Enabled(s, e)
    ensures Current(Step(s, e).workers, Step(s, e).record, Step(s, e).last, Step(s, e).used)
  {
    if e.Spawn? {
      Owner(s, e.cli);
    }
  }

  lemma ExpectedStep(s: State, e: Event)
    requires Inv(s) && Enabled(s, e)
    ensures var n := Step(s, e);
            n.startOwner.Some? && n.startOwner.value in n.clis ==>
              Expected(n.clis[n.startOwner.value], n.workers, n.record, n.last)
  {
    match e
    case TryLifetime(c) =>
      Owner(s, c);
      if s.holders == {} {
        FreeMeansDead(s);
      } else {
        TakenMeansWorker(s, c);
      }
    case RemoveStale(c) => Owner(s, c);
    case Spawn(c, _) => Owner(s, c);
    case SeeExit(c) => Owner(s, c);
    case KillChild(c) => Owner(s, c);
    case RemoveFailed(c) => Owner(s, c);
    case ReadForReuse(c) => Owner(s, c);
    case ReadReady(c) => Owner(s, c);
    case _ =>
  }

  lemma HonestStep(s: State, e: Event)
    requires Inv(s) && Enabled(s, e)
    ensures Honest(Step(s, e).successes)
  {
    match e
    case ReadForReuse(c) => Owner(s, c);
    case ReadReady(c) => Owner(s, c);
    case _ =>
  }

  lemma StepInv(s: State, e: Event)
    requires Inv(s) && Enabled(s, e)
    ensures Inv(Step(s, e))
  {
    hide Step, Enabled, HeldByWorkers, HeldByClis, Current, Expected, Honest;
    SerializedStep(s, e);
    WorkersHoldStep(s, e);
    ClisHoldStep(s, e);
    CurrentStep(s, e);
    ExpectedStep(s, e);
    HonestStep(s, e);
  }

  lemma {:induction false} RunInv(s: State, trace: seq<Event>, t: State)
    requires Inv(s) && Run(s, trace, t)
    ensures Inv(t)
    decreases |trace|
  {
    hide Enabled, Step, Inv;
    if trace != [] {
      StepInv(s, trace[0]);
      RunInv(Step(s, trace[0]), trace[1..], t);
    }
  }

  lemma {:induction false} RunAppend(s: State, trace: seq<Event>, t: State, e: Event)
    requires Run(s, trace, t) && Enabled(t, e)
    ensures Run(s, trace + [e], Step(t, e))
    decreases |trace|
  {
    hide Enabled, Step;
    if trace == [] {
      assert Run(Step(t, e), [], Step(t, e));
      assert [e][1..] == [];
    } else {
      RunAppend(Step(s, trace[0]), trace[1..], t, e);
      assert (trace + [e])[1..] == trace[1..] + [e];
    }
  }
}
