/** What holds of every run of command-line processes and delivery workers. */
module DeliveryTheorems {
  import opened Common
  import opened DeliveryMachine

  /** At most one worker is alive, and it is the one spawned last. */
  lemma SingletonWorker(trace: seq<Event>, t: State, v: nat, w: nat)
    requires Run(INITIAL, trace, t) && v in t.workers && w in t.workers
    ensures v == w && Worker(w) in t.holders && t.last == Some(Record(w, t.workers[w].broker))
  {
    hide Run, Serialized, HeldByClis, Expected, Honest, INITIAL;
    InitialInv();
    RunInv(INITIAL, trace, t);
  }

  /** The lifetime lock is never leaked: it is free exactly if no worker lives and nobody is launching. */
  lemma LockFollowsLifetime(trace: seq<Event>, t: State)
    requires Run(INITIAL, trace, t)
    ensures t.holders == {} <==> t.workers == map[] && forall c :: c in t.clis ==> !Launching(t.clis[c].phase)
    ensures forall c :: c in t.clis && Launching(t.clis[c].phase) ==> t.startOwner == Some(c)
  {
    hide Run, Current, Expected, Honest, INITIAL;
    InitialInv();
    RunInv(INITIAL, trace, t);
    if t.holders == {} {
      FreeMeansDead(t);
    }
    if t.workers == map[] && forall c :: c in t.clis ==> !Launching(t.clis[c].phase) {
      NobodyHolds(t);
    }
  }

  lemma NobodyHolds(t: State)
    requires HeldByWorkers(t.holders, t.workers) && HeldByClis(t.holders, t.clis)
    requires t.workers == map[] && forall c :: c in t.clis ==> !Launching(t.clis[c].phase)
    ensures t.holders == {}
  {
    if h :| h in t.holders {
      if h.Cli? {
        assert false;
      }
      assert false;
    }
  }

  /**
   * A record that is visible while a worker is alive was written by that worker: what crashed
   * workers left behind is gone before the next one is spawned, and nothing is visible before it
   * has published.
   */
  lemma VisibleRecordIsCurrent(trace: seq<Event>, t: State, w: nat)
    requires Run(INITIAL, trace, t) && w in t.workers
    ensures t.record.Some? ==> t.record.value == Record(w, t.workers[w].broker)
    ensures t.workers[w].phase.Starting? ==> t.record.None?
  {
    hide Run, Serialized, HeldByWorkers, HeldByClis, Expected, Honest, INITIAL;
    InitialInv();
    RunInv(INITIAL, trace, t);
  }

  /** Every success names the requested broker, in a record written by the worker relied on. */
  lemma SuccessesNameTheBroker(trace: seq<Event>, t: State, i: nat)
    requires Run(INITIAL, trace, t) && i < |t.successes|
    ensures t.successes[i].record.broker == t.successes[i].broker
    ensures t.successes[i].record.worker == t.successes[i].relied
  {
    hide Run, Serialized, HeldByWorkers, HeldByClis, Current, Expected, INITIAL;
    InitialInv();
    RunInv(INITIAL, trace, t);
  }

  /** A leaving worker removes no record but its own, however long it waits after checking. */
  lemma RemovalIsOwn(trace: seq<Event>, t: State, w: nat)
    requires Run(INITIAL, trace, t) && Enabled(t, RemoveOwn(w))
    ensures Step(t, RemoveOwn(w)).record != t.record ==> t.record == Some(Record(w, t.workers[w].broker))
  {
    hide Run, Serialized, HeldByWorkers, HeldByClis, Expected, Honest, INITIAL;
    InitialInv();
    RunInv(INITIAL, trace, t);
  }

  /** A worker's record stays visible from its publication until the worker itself removes it, or dies. */
  ghost predicate Advertised(s: State) {
    forall w :: w in s.workers ==>
      && (s.workers[w].phase.Ready? || s.workers[w].phase.Checked? ==>
            s.record == Some(Record(w, s.workers[w].broker)))
      && (s.workers[w].phase.Checked? ==> s.workers[w].phase.own)
  }

  lemma AdvertisedStep(s: State, e: Event)
    requires Inv(s) && Advertised(s) && Enabled(s, e)
    ensures Advertised(Step(s, e))
  {
    hide HeldByWorkers, HeldByClis, Honest;
    match e
    case RemoveStale(c) => Owner(s, c);
    case Spawn(c, _) => Owner(s, c);
    case RemoveFailed(c) => Owner(s, c);
    case _ =>
  }

  lemma {:induction false} RunAdvertised(s: State, trace: seq<Event>, t: State)
    requires Inv(s) && Advertised(s) && Run(s, trace, t)
    ensures Advertised(t)
    decreases |trace|
  {
    hide Inv, Advertised, Enabled, Step;
    if trace != [] {
      AdvertisedStep(s, trace[0]);
      StepInv(s, trace[0]);
      RunAdvertised(Step(s, trace[0]), trace[1..], t);
    }
  }

  /**
   * A worker that leaves in order finds its own record, and none is left when it has removed it: nobody
   * else removes or replaces the record of a live worker, however long it waits between check and removal.
   */
  lemma LeavingWorkerRemovesItsRecord(trace: seq<Event>, t: State, w: nat)
    requires Run(INITIAL, trace, t) && w in t.workers
    ensures WorkerAt(t, w, Ready) ==>
              WorkerAt(Step(t, CheckOwn(w)), w, Checked(true))
    ensures t.workers[w].phase.Checked? ==>
              t.record == Some(Record(w, t.workers[w].broker)) && Step(t, RemoveOwn(w)).record == None
  {
    hide Run, Inv;
    InitialInv();
    RunAdvertised(INITIAL, trace, t);
  }

  /** After a failed start has been cleaned up there is neither a worker nor a record. */
  lemma FailedStartLeavesNothing(trace: seq<Event>, t: State, c: nat)
    requires Run(INITIAL, trace, t) && CliAt(t, c, CleanedUp)
    ensures t.workers == map[] && t.record.None?
  {
    hide Run, HeldByWorkers, HeldByClis, Current, Honest, INITIAL;
    InitialInv();
    RunInv(INITIAL, trace, t);
    Owner(t, c);
  }

  /**
   * A command that finds the lifetime lock taken relies on a worker that is alive at that moment.
   * It may die before the record is read; the record is then still the one it wrote.
   */
  lemma ReliedWorkerWasAlive(trace: seq<Event>, t: State, c: nat)
    requires Run(INITIAL, trace, t) && CliAt(t, c, Deciding) && t.holders != {}
    ensures exists w :: w in t.workers && CliAt(Step(t, TryLifetime(c)), c, Looking(w))
  {
    hide Run, Current, Honest, INITIAL;
    InitialInv();
    RunInv(INITIAL, trace, t);
    TakenMeansWorker(t, c);
    assert CliAt(Step(t, TryLifetime(c)), c, Looking(t.last.value.worker));
  }

  /**
   * While a command looks for the record of the worker it found, that worker is alive exactly as long
   * as the lifetime lock is still taken.
   */
  lemma AliveIffTaken(trace: seq<Event>, t: State, c: nat, w: nat)
    requires Run(INITIAL, trace, t) && CliAt(t, c, Looking(w))
    ensures w in t.workers <==> t.holders != {}
  {
    hide Run, Honest, INITIAL;
    InitialInv();
    RunInv(INITIAL, trace, t);
    Owner(t, c);
    if w in t.workers {
      assert Worker(w) in t.holders;
    }
    if h :| h in t.holders {
      if h.Cli? {
        Owner(t, h.cli);
      }
      assert h.Worker? && h.worker in t.workers && h.worker == w;
    }
  }

  /**
   * When a reused worker is dead: a command reuses a record exactly if the record names its broker, it
   * then returns the worker it relies on, and that worker is alive at the return if and only if the
   * lifetime lock is taken at the read.
   */
  lemma ReuseIsAliveIffTaken(trace: seq<Event>, t: State, c: nat, w: nat)
    requires Run(INITIAL, trace, t) && CliAt(t, c, Looking(w))
    ensures var n := Step(t, ReadForReuse(c)); var broker := t.clis[c].broker;
            if t.record.Some? && t.record.value.broker == broker then
              && n.successes == t.successes + [Success(broker, Record(w, broker), w)]
              && (w in n.workers <==> t.holders != {})
            else n.successes == t.successes && CliAt(n, c, Deciding)
  {
    AliveIffTaken(trace, t, c, w);
    hide Run, Serialized, HeldByWorkers, HeldByClis, INITIAL;
    InitialInv();
    RunInv(INITIAL, trace, t);
    LookingExpects(trace, t, c, w);
  }

  lemma LookingExpects(trace: seq<Event>, t: State, c: nat, w: nat)
    requires Run(INITIAL, trace, t) && CliAt(t, c, Looking(w))
    ensures t.record.Some? ==> t.record.value.worker == w
  {
    hide Run, HeldByWorkers, HeldByClis, Honest, INITIAL;
    InitialInv();
    RunInv(INITIAL, trace, t);
    Owner(t, c);
  }

  // ---- A run that returns a dead worker ----

  const BROKER: nat := 7
  const FIRST: Record := Record(1, BROKER)

  lemma FirstLockTaken() returns (trace: seq<Event>, t: State)
    ensures Run(INITIAL, trace, t)
    ensures t == INITIAL.(startOwner := Some(0), clis := map[0 := CliProcess(Cleared, BROKER)], holders := {Cli(0)})
  {
    var e0, e1, e2, e3 := Begin(0, BROKER), TakeStart(0), TryLifetime(0), RemoveStale(0);
    var s1 := Step(INITIAL, e0);
    var s2 := Step(s1, e1);
    var s3 := Step(s2, e2);
    t := Step(s3, e3);
    RunAppend(INITIAL, [], INITIAL, e0);
    RunAppend(INITIAL, [e0], s1, e1);
    RunAppend(INITIAL, [e0] + [e1], s2, e2);
    RunAppend(INITIAL, [e0] + [e1] + [e2], s3, e3);
    assert [] + [e0] == [e0];
    trace := [e0] + [e1] + [e2] + [e3];
  }

  /** The state after the first command has launched a worker and returned. */
  function WithWorker(): State {
    State(None, map[], map[1 := WorkerProcess(Ready, BROKER)], {Worker(1)}, Some(FIRST), Some(FIRST), {1},
          [Success(BROKER, FIRST, 1)])
  }

  lemma FirstWorkerLaunched() returns (trace: seq<Event>)
    ensures Run(INITIAL, trace, WithWorker())
  {
    hide Run;
    var before, s := FirstLockTaken();
    var e0, e1, e2 := Spawn(0, 1), Publish(1), ReadReady(0);
    var s1 := Step(s, e0);
    var s2 := Step(s1, e1);
    var t := Step(s2, e2);
    RunAppend(INITIAL, before, s, e0);
    RunAppend(INITIAL, before + [e0], s1, e1);
    RunAppend(INITIAL, before + [e0] + [e1], s2, e2);
    assert t.clis == map[] && t.holders == {Worker(1)};
    assert t == WithWorker();
    trace := before + [e0] + [e1] + [e2];
  }

  /** A second command finds the lock taken. */
  lemma SecondCommandLooks() returns (trace: seq<Event>, t: State)
    ensures Run(INITIAL, trace, t)
    ensures t == WithWorker().(startOwner := Some(0), clis := map[0 := CliProcess(Looking(1), BROKER)])
  {
    hide Run, INITIAL;
    var before := FirstWorkerLaunched();
    var s := WithWorker();
    var e0, e1, e2 := Begin(0, BROKER), TakeStart(0), TryLifetime(0);
    var s1 := Step(s, e0);
    var s2 := Step(s1, e1);
    t := Step(s2, e2);
    RunAppend(INITIAL, before, s, e0);
    RunAppend(INITIAL, before + [e0], s1, e1);
    RunAppend(INITIAL, before + [e0] + [e1], s2, e2);
    trace := before + [e0] + [e1] + [e2];
  }

  /** The worker dies before the record is read: the command succeeds and names a dead worker. */
  lemma ReuseMayNameDeadWorker() returns (trace: seq<Event>, t: State)
    ensures Run(INITIAL, trace, t) && |t.successes| == 2
    ensures t.successes[1] == Success(BROKER, FIRST, 1) && 1 !in t.workers
  {
    hide Run, INITIAL;
    var before, s := SecondCommandLooks();
    var e0, e1 := EndWorker(1), ReadForReuse(0);
    var s1 := Step(s, e0);
    t := Step(s1, e1);
    RunAppend(INITIAL, before, s, e0);
    RunAppend(INITIAL, before + [e0], s1, e1);
    trace := before + [e0] + [e1];
  }
}
