/**
 * The launch command as code: its polling loops under arbitrary interference. It takes only steps
 * of the delivery machine, and gives both locks back whatever happens.
 */
module DeliveryLaunch {
  import opened Common
  import opened DeliveryMachine
  import opened DeliveryTheorems

  /** The operating system's view, shared by all processes. */
  class Host {
    var state: State
    ghost var trace: seq<Event>

    ghost predicate Valid()
      reads this
    {
      Run(INITIAL, trace, state)
    }

    constructor ()
      ensures Valid() && state == INITIAL
    {
      state, trace := INITIAL, [];
    }

    method Do(e: Event)
      requires Valid() && Enabled(state, e)
      modifies this
      ensures Valid() && state == Step(old(state), e) && trace == old(trace) + [e]
    {
      hide Step, Enabled, INITIAL;
      RunAppend(INITIAL, trace, state, e);
      state := Step(state, e);
      trace := trace + [e];
    }
  }

  predicate ByCli(e: Event, c: nat) {
    match e
    case Begin(d, _) => d == c
    case TakeStart(d) => d == c
    case TryLifetime(d) => d == c
    case ReadForReuse(d) => d == c
    case RemoveStale(d) => d == c
    case Spawn(d, _) => d == c
    case ReadReady(d) => d == c
    case SeeExit(d) => d == c
    case KillChild(d) => d == c
    case RemoveFailed(d) => d == c
    case Leave(d) => d == c
    case _ => false
  }

  lemma OthersKeepCli(s: State, e: Event, c: nat)
    requires c in s.clis && Enabled(s, e) && !ByCli(e, c)
    ensures c in Step(s, e).clis && Step(s, e).clis[c] == s.clis[c]
  {
  }

  /** Operations of the command that fail this time. */
  datatype Fault =
    | StartLockFails | LifetimeLockFails | RemoveStaleFails | SpawnFails
    | ReadFails | PollFails | KillFails | RemoveFails

  datatype LaunchError =
    | StartLockTimeout | PreviousWorkerStays | FileError | SpawnError | WorkerExited | WorkerNotReady

  predicate ForBroker(record: Option<Record>, broker: nat) {
    record.Some? && record.value.broker == broker
  }

  /** A worker holds the lifetime lock, is ready for the broker, and nobody else is starting one. */
  predicate ReadyFor(s: State, broker: nat) {
    s.startOwner.None? && s.holders != {} && ForBroker(s.record, broker)
  }

  /** Waiting points that must have been passed before a timeout is reported. */
  function Polls(r: Result<Record, LaunchError>, patience: nat): nat {
    if r == Err(PreviousWorkerStays) then 2 * patience
    else if r == Err(StartLockTimeout) || r == Err(WorkerNotReady) then patience
    else 0
  }

  /** Errors of the file system and of the process table come from operations that failed. */
  predicate Justified(r: Result<Record, LaunchError>, faults: set<Fault>) {
    && (r == Err(FileError) ==> exists f :: f in faults && f != SpawnFails)
    && (r == Err(SpawnError) ==> SpawnFails in faults)
  }

  /** The event is among those since `before`. */
  ghost predicate Happened(before: seq<Event>, after: seq<Event>, e: Event) {
    exists i :: |before| <= i < |after| && after[i] == e
  }

  lemma HappenedLast(before: seq<Event>, after: seq<Event>, e: Event)
    requires before <= after
    ensures Happened(before, after + [e], e)
  {
    assert (after + [e])[|after|] == e;
  }

  lemma StillHappened(before: seq<Event>, middle: seq<Event>, after: seq<Event>, e: Event)
    requires middle <= after && Happened(before, middle, e)
    ensures Happened(before, after, e)
  {
    var i :| |before| <= i < |middle| && middle[i] == e;
    assert after[i] == e;
  }

  /** Since `before` the command has neither killed a child nor seen one exit. */
  ghost predicate LeftAlone(before: seq<Event>, after: seq<Event>, c: nat) {
    before <= after && forall i :: |before| <= i < |after| ==> after[i] != KillChild(c) && after[i] != SeeExit(c)
  }

  lemma LeftAloneOn(before: seq<Event>, middle: seq<Event>, after: seq<Event>, c: nat)
    requires LeftAlone(before, middle, c) && LeftAlone(middle, after, c)
    ensures LeftAlone(before, after, c)
  {
    assert forall i :: 0 <= i < |middle| ==> after[i] == middle[i];
  }

  /** Nothing fails that a reuse needs. */
  predicate CanReuse(faults: set<Fault>) {
    StartLockFails !in faults && LifetimeLockFails !in faults && ReadFails !in faults
  }

  predicate LocksWork(faults: set<Fault>) {
    StartLockFails !in faults && LifetimeLockFails !in faults
  }

  lemma TakingKeeps(s: State, c: nat)
    requires Enabled(s, TakeStart(c))
    ensures Step(s, TakeStart(c)).holders == s.holders && Step(s, TakeStart(c)).record == s.record
  {
  }

  class DeliveryWorker {
    const host: Host
    const id: nat
    const broker: nat
    /** What the rest of the system does at the command's successive waiting points. */
    var interference: seq<seq<Event>>
    /** The child this command has started, and the records it read while waiting for that child. */
    var child: Option<nat>
    var polls: seq<Option<Record>>

    ghost predicate Valid(p: CliPhase)
      reads this, host
    {
      host.Valid() && id in host.state.clis && host.state.clis[id] == CliProcess(p, broker)
    }

    /** The command is over: it has no copy of either lock. */
    ghost predicate Gone()
      reads this, host
    {
      host.Valid() && id !in host.state.clis && Cli(id) !in host.state.holders && host.state.startOwner != Some(id)
    }

    /** What holds whenever the command is over. */
    ghost predicate Ended(r: Result<Record, LaunchError>)
      reads this, host
    {
      && Gone()
      && (r.Ok? ==> r.value.broker == broker && Success(broker, r.value, r.value.worker) in host.state.successes)
      && (r == Err(WorkerExited) || r == Err(WorkerNotReady) ==> host.state.workers == map[] && host.state.record.None?)
    }

    /** No child was started: the result is not about one. */
    ghost predicate Childless(r: Result<Record, LaunchError>)
      reads this
    {
      child.None? && polls == [] && r != Err(WorkerExited) && r != Err(WorkerNotReady)
    }

    /**
     * A child was started. Its record, if seen at a poll, makes the result a success; unready is
     * reported only after all polls and a kill, exited only after the exit was seen.
     */
    ghost predicate Watched(r: Result<Record, LaunchError>, patience: nat, start: seq<Event>)
      reads this, host
    {
      && child.Some? && Happened(start, host.trace, Spawn(id, child.value))
      && (forall i :: 0 <= i < |polls| && polls[i] == Some(Record(child.value, broker)) ==> r.Ok?)
      && (r == Err(WorkerNotReady) ==> |polls| == patience && Happened(start, host.trace, KillChild(id)))
      && (r == Err(WorkerExited) ==> Happened(start, host.trace, SeeExit(id)))
    }

    /**
     * After a failed start no worker is left, unless the poll of the child or its killing failed; then
     * the child is left as it is, alive if it has not died by itself.
     */
    ghost predicate ChildFate(faults: set<Fault>, start: seq<Event>)
      reads this, host
    {
      && (PollFails !in faults && KillFails !in faults ==> host.state.workers == map[])
      && (host.state.workers == map[] || LeftAlone(start, host.trace, id))
    }

    /** Everything promised of a command that is over. */
    ghost predicate Closed(r: Result<Record, LaunchError>, faults: set<Fault>, patience: nat, start: seq<Event>)
      reads this, host
    {
      && Ended(r) && Justified(r, faults) && start <= host.trace
      && (Childless(r) || (Watched(r, patience, start) && (r.Err? ==> ChildFate(faults, start))))
    }

    /** The launch was tried: stale records were removed, and a child was spawned, unless that failed. */
    ghost predicate Tried(faults: set<Fault>, start: seq<Event>)
      reads this, host
    {
      && (RemoveStaleFails !in faults ==> Happened(start, host.trace, RemoveStale(id)))
      && (RemoveStaleFails !in faults && SpawnFails !in faults ==> child.Some?)
    }

    constructor (host: Host, id: nat, broker: nat, interference: seq<seq<Event>>)
      requires host.Valid() && id !in host.state.clis
      modifies host
      ensures Valid(Waiting) && this.host == host && this.id == id && this.broker == broker
      ensures child.None? && polls == []
    {
      this.host, this.id, this.broker, this.interference := host, id, broker, interference;
      child, polls := None, [];
      new;
      hide Run, INITIAL;
      host.Do(Begin(id, broker));
    }

    /** Sleeps, or is not scheduled: everybody else moves. */
    method Pause(ghost p: CliPhase)
      requires Valid(p)
      modifies this`interference, host
      ensures Valid(p) && |interference| == SatSub(|old(interference)|, 1)
      ensures LeftAlone(old(host.trace), host.trace, id)
      ensures |old(interference)| == 0 ==> host.state == old(host.state)
    {
      hide Run, Step, Enabled, INITIAL;
      if interference == [] {
        return;
      }
      var events := interference[0];
      interference := interference[1..];
      for i := 0 to |events|
        invariant Valid(p) && interference == old(interference)[1..]
        invariant LeftAlone(old(host.trace), host.trace, id)
      {
        if Enabled(host.state, events[i]) && !ByCli(events[i], id) {
          OthersKeepCli(host.state, events[i], id);
          host.Do(events[i]);
        }
      }
    }

    method Quit(ghost p: CliPhase)
      requires Valid(p)
      modifies host
      ensures Gone() && host.state == WithoutCli(old(host.state), id)
      ensures LeftAlone(old(host.trace), host.trace, id)
    {
      hide Run, INITIAL;
      host.Do(Leave(id));
    }

    /** Opens the lock file and tries once, and then after each of at most `patience` waits. */
    method AcquireStart(patience: nat, faults: set<Fault>) returns (r: Option<LaunchError>)
      requires Valid(Waiting)
      modifies this`interference, host
      ensures LeftAlone(old(host.trace), host.trace, id) && |interference| <= |old(interference)|
      ensures if r.None? then Valid(Deciding) else Gone()
      ensures r.Some? ==> r.value == if StartLockFails in faults then FileError else StartLockTimeout
      ensures StartLockFails in faults ==> r.Some?
      ensures StartLockFails !in faults && old(host.state).startOwner.None? ==>
                r.None? && host.state == Step(old(host.state), TakeStart(id)) && interference == old(interference)
      ensures r == Some(StartLockTimeout) ==> |interference| == SatSub(|old(interference)|, patience)
    {
      hide Run, INITIAL;
      if StartLockFails in faults {
        Quit(Waiting);
        return Some(FileError);
      }
      for i := 0 to patience + 1
        invariant Valid(Waiting) && LeftAlone(old(host.trace), host.trace, id)
        invariant |interference| == SatSub(|old(interference)|, if i <= patience then i else patience)
        invariant i > 0 ==> old(host.state).startOwner.Some?
        invariant i == 0 ==> host.state == old(host.state) && interference == old(interference)
      {
        if host.state.startOwner.None? {
          host.Do(TakeStart(id));
          return None;
        }
        if i < patience {
          Pause(Waiting);
        }
      }
      Quit(Waiting);
      r := Some(StartLockTimeout);
    }

    /**
     * Success names the requested broker and is recorded as relying on the worker that wrote the
     * record; a failed start that could be cleaned up leaves neither a worker nor a record. No failure
     * is spurious: locks free at the first try are taken, a free lifetime lock leads to a launch, all
     * polls are spent before a timeout, a file or spawn error needs a failing operation, and a ready
     * worker is reused at once.
     */
    method EnsureRunning(patience: nat, faults: set<Fault>) returns (r: Result<Record, LaunchError>)
      requires Valid(Waiting) && child.None? && polls == []
      modifies this`interference, this`child, this`polls, host
      ensures Closed(r, faults, patience, old(host.trace))
      ensures old(host.state).startOwner.None? ==> r != Err(StartLockTimeout)
      ensures old(host.state).startOwner.None? && old(host.state).holders == {} ==> r != Err(PreviousWorkerStays)
      ensures old(host.state).startOwner.None? && old(host.state).holders == {} && LocksWork(faults) ==>
                Tried(faults, old(host.trace))
      ensures |interference| <= SatSub(|old(interference)|, Polls(r, patience))
      ensures ReadyFor(old(host.state), broker) && |old(interference)| == 0 && CanReuse(faults) ==>
                r.Ok? && Some(r.value) == old(host.state).record
    {
      hide Run, Step, Enabled, INITIAL, Closed, Tried, LeftAlone;
      ghost var before := host.state;
      ghost var start := host.trace;
      var refused := AcquireStart(patience, faults);
      if refused.Some? {
        NotStarted(refused.value, faults, patience, start);
        return Err(refused.value);
      }
      if before.startOwner.None? {
        TakingKeeps(before, id);
      }
      r := Decide(patience, faults, start);
    }

    lemma NotStarted(e: LaunchError, faults: set<Fault>, patience: nat, start: seq<Event>)
      requires Gone() && LeftAlone(start, host.trace, id) && child.None? && polls == []
      requires e == if StartLockFails in faults then FileError else StartLockTimeout
      ensures Closed(Err(e), faults, patience, start)
    {
      hide Gone;
    }

    /** The decision loop under the start lock: launch if the lifetime lock is free, else reuse or wait. */
    method Decide(patience: nat, faults: set<Fault>, ghost start: seq<Event>)
      returns (r: Result<Record, LaunchError>)
      requires Valid(Deciding) && child.None? && polls == [] && LeftAlone(start, host.trace, id)
      modifies this`interference, this`child, this`polls, host
      ensures Closed(r, faults, patience, start)
      ensures r != Err(StartLockTimeout)
      ensures old(host.state).holders == {} ==> r != Err(PreviousWorkerStays)
      ensures old(host.state).holders == {} && LifetimeLockFails !in faults ==> Tried(faults, start)
      ensures |interference| <= SatSub(|old(interference)|, Polls(r, patience))
      ensures old(host.state).holders != {} && ForBroker(old(host.state).record, broker)
                && |old(interference)| == 0 && CanReuse(faults) ==>
                r.Ok? && Some(r.value) == old(host.state).record
    {
      hide Run, Step, Enabled, INITIAL, Ended, Justified, Closed, Tried, LeftAlone;
      for i := 0 to patience + 1
        invariant Valid(Deciding) && child.None? && polls == [] && LeftAlone(start, host.trace, id)
        invariant |interference| <= SatSub(|old(interference)|, if i <= patience then 2 * i else 2 * patience)
        invariant i == 0 ==> host.state == old(host.state)
        invariant i > 0 ==> old(host.state).holders != {}
        invariant i > 0 && |old(interference)| == 0 && CanReuse(faults) ==> !ForBroker(old(host.state).record, broker)
      {
        if LifetimeLockFails in faults {
          QuitWith(LifetimeLockFails, Deciding, faults, patience, start);
          return Err(FileError);
        }
        var vacant := TryLifetime(start);
        if vacant {
          PauseOn(Vacant, start);
          r := Launch(patience, faults, start);
          return;
        }
        PauseOn(Looking(LookingAt()), start);
        if ReadFails in faults {
          QuitWith(ReadFails, Looking(LookingAt()), faults, patience, start);
          return Err(FileError);
        }
        var found := ReadForReuse(start);
        if found.Some? {
          Reused(found.value, faults, patience, start);
          return Ok(found.value);
        }
        if i < patience {
          PauseOn(Deciding, start);
        }
      }
      StartsBefore(start, host.trace, id);
      ghost var middle := host.trace;
      Quit(Deciding);
      StartsBefore(middle, host.trace, id);
      Waited(faults, patience, start);
      r := Err(PreviousWorkerStays);
    }

    /** A pause seen from the start of the command. */
    method PauseOn(ghost p: CliPhase, ghost start: seq<Event>)
      requires Valid(p) && LeftAlone(start, host.trace, id)
      modifies this`interference, host
      ensures Valid(p) && |interference| == SatSub(|old(interference)|, 1) && LeftAlone(start, host.trace, id)
      ensures old(host.trace) <= host.trace
      ensures |old(interference)| == 0 ==> host.state == old(host.state)
    {
      hide Run, INITIAL;
      ghost var middle := host.trace;
      Pause(p);
      LeftAloneOn(start, middle, host.trace, id);
    }

    /** Gives up because of a failing file operation, before a child has been started. */
    method QuitWith(
      ghost f: Fault, ghost p: CliPhase, ghost faults: set<Fault>, ghost patience: nat, ghost start: seq<Event>)
      requires Valid(p) && f in faults && f != SpawnFails
      requires child.None? && polls == [] && LeftAlone(start, host.trace, id)
      modifies host
      ensures Closed(Err(FileError), faults, patience, start)
    {
      hide Run, INITIAL, LeftAlone;
      ghost var middle := host.trace;
      Quit(p);
      LeftAloneOn(start, middle, host.trace, id);
      StartsBefore(start, host.trace, id);
    }

    lemma Reused(v: Record, faults: set<Fault>, patience: nat, start: seq<Event>)
      requires Ended(Ok(v)) && child.None? && polls == [] && LeftAlone(start, host.trace, id)
      ensures Closed(Ok(v), faults, patience, start)
    {
      hide Ended;
    }

    lemma Waited(faults: set<Fault>, patience: nat, start: seq<Event>)
      requires Gone() && child.None? && polls == [] && start <= host.trace
      ensures Closed(Err(PreviousWorkerStays), faults, patience, start)
    {
      hide Gone;
    }

    ghost function LookingAt(): nat
      reads this, host
      requires id in host.state.clis && host.state.clis[id].phase.Looking?
    {
      host.state.clis[id].phase.holder
    }

    method TryLifetime(ghost start: seq<Event>) returns (vacant: bool)
      requires Valid(Deciding) && LeftAlone(start, host.trace, id)
      modifies host
      ensures LeftAlone(start, host.trace, id)
      ensures host.Valid() && id in host.state.clis && host.state.clis[id].broker == broker
      ensures if vacant then Valid(Vacant) else host.state.clis[id].phase.Looking?
      ensures vacant <==> old(host.state).holders == {}
      ensures host.state.record == old(host.state).record
    {
      hide Run, INITIAL;
      vacant := host.state.holders == {};
      host.Do(DeliveryMachine.TryLifetime(id));
    }

    method ReadForReuse(ghost start: seq<Event>) returns (found: Option<Record>)
      requires host.Valid() && id in host.state.clis && host.state.clis[id].broker == broker
      requires host.state.clis[id].phase.Looking? && LeftAlone(start, host.trace, id)
      modifies host
      ensures LeftAlone(start, host.trace, id)
      ensures if found.Some? then Ended(Ok(found.value)) else Valid(Deciding)
      ensures found == if ForBroker(old(host.state).record, broker) then old(host.state).record else None
    {
      hide Run, INITIAL;
      found := if ForBroker(host.state.record, broker) then host.state.record else None;
      host.Do(DeliveryMachine.ReadForReuse(id));
      if found.Some? {
        LastIsHonest(host.trace, host.state);
      }
    }

    /** Removes what an earlier worker left behind, spawns the child, and waits for it. */
    method Launch(patience: nat, faults: set<Fault>, ghost start: seq<Event>)
      returns (r: Result<Record, LaunchError>)
      requires Valid(Vacant) && child.None? && polls == [] && LeftAlone(start, host.trace, id)
      modifies this`interference, this`child, this`polls, host
      ensures Closed(r, faults, patience, start) && Tried(faults, start)
      ensures r != Err(StartLockTimeout) && r != Err(PreviousWorkerStays)
      ensures |interference| <= SatSub(|old(interference)|, Polls(r, patience))
    {
      hide Run, Step, Enabled, INITIAL, Ended, Justified, Closed, LeftAlone, Happened;
      if RemoveStaleFails in faults {
        QuitWith(RemoveStaleFails, Vacant, faults, patience, start);
        return Err(FileError);
      }
      StartsBefore(start, host.trace, id);
      Advance(RemoveStale(id), Vacant, Cleared, start);
      ghost var removed := host.trace;
      PauseOn(Cleared, start);
      StillHappened(start, removed, host.trace, RemoveStale(id));
      ghost var ready := host.trace;
      if SpawnFails in faults {
        QuitUnspawned(faults, patience, start);
        StillHappened(start, ready, host.trace, RemoveStale(id));
        return Err(SpawnError);
      }
      SpawnChild(start);
      r := WaitUntilReady(patience, faults, start);
      StillHappened(start, ready, host.trace, RemoveStale(id));
    }

    method QuitUnspawned(ghost faults: set<Fault>, ghost patience: nat, ghost start: seq<Event>)
      requires Valid(Cleared) && SpawnFails in faults
      requires child.None? && polls == [] && LeftAlone(start, host.trace, id)
      modifies host
      ensures Closed(Err(SpawnError), faults, patience, start) && old(host.trace) <= host.trace
    {
      hide Run, INITIAL;
      Quit(Cleared);
    }

    /** One of the command's own unconditional steps. */
    method Advance(e: Event, ghost p: CliPhase, ghost q: CliPhase, ghost start: seq<Event>)
      requires Valid(p) && start <= host.trace
      requires (e == RemoveStale(id) && p.Vacant? && q.Cleared?) || (e == RemoveFailed(id) && p.Reaped? && q.CleanedUp?)
      modifies host
      ensures Valid(q) && host.trace == old(host.trace) + [e] && Happened(start, host.trace, e)
      ensures LeftAlone(start, old(host.trace), id) ==> LeftAlone(start, host.trace, id)
    {
      hide Run, INITIAL;
      host.Do(e);
      HappenedLast(start, old(host.trace), e);
    }

    method SpawnChild(ghost start: seq<Event>)
      requires Valid(Cleared) && LeftAlone(start, host.trace, id)
      modifies this`child, host
      ensures child.Some? && Valid(Launched(child.value))
      ensures LeftAlone(start, host.trace, id) && Happened(start, host.trace, Spawn(id, child.value))
      ensures old(host.trace) <= host.trace
    {
      hide Run, INITIAL;
      SomeIdIsFree(host.state.used);
      var w :| w !in host.state.used;
      HappenedLast(start, host.trace, Spawn(id, w));
      host.Do(Spawn(id, w));
      child := Some(w);
    }

    /** Reads the record once; a record of the child connects and ends the command. */
    method Poll(ghost start: seq<Event>) returns (ready: bool)
      requires child.Some? && Valid(Launched(child.value)) && LeftAlone(start, host.trace, id)
      modifies this`polls, host
      ensures polls == old(polls) + [old(host.state).record]
      ensures ready <==> old(host.state).record == Some(Record(child.value, broker))
      ensures if ready then Ended(Ok(Record(child.value, broker)))
              else Valid(Launched(child.value)) && host.state == old(host.state)
      ensures LeftAlone(start, host.trace, id) && old(host.trace) <= host.trace
    {
      hide Run, INITIAL;
      polls := polls + [host.state.record];
      ready := host.state.record == Some(Record(child.value, broker));
      host.Do(ReadReady(id));
    }

    method WaitUntilReady(patience: nat, faults: set<Fault>, ghost start: seq<Event>)
      returns (r: Result<Record, LaunchError>)
      requires child.Some? && Valid(Launched(child.value)) && polls == []
      requires LeftAlone(start, host.trace, id) && Happened(start, host.trace, Spawn(id, child.value))
      modifies this`interference, this`polls, host
      ensures Closed(r, faults, patience, start) && old(host.trace) <= host.trace
      ensures r.Ok? ==> r.value == Record(child.value, broker)
      ensures r != Err(StartLockTimeout) && r != Err(PreviousWorkerStays)
      ensures |interference| <= SatSub(|old(interference)|, Polls(r, patience))
    {
      hide Run, Step, Enabled, INITIAL, Ended, Justified, LeftAlone, Happened, Closed, Unready;
      ghost var began := host.trace;
      var c := child.value;
      Unread(start);
      for i := 0 to patience
        invariant Valid(Launched(c)) && Unready(start) && |polls| == i && began <= host.trace
        invariant |interference| == SatSub(|old(interference)|, i)
      {
        StillWatching(start);
        ghost var now := host.trace;
        PauseOn(Launched(c), start);
        StillHappened(start, now, host.trace, Spawn(id, c));
        if ReadFails in faults {
          Unread(start);
          r := Terminate(ReadFails, patience, faults, start);
          return;
        }
        now := host.trace;
        var ready := Poll(start);
        StillHappened(start, now, host.trace, Spawn(id, c));
        if ready {
          Connected(faults, patience, start);
          return Ok(Record(c, broker));
        }
        Unread(start);
        if PollFails in faults {
          LeaveChild(PollFails, patience, faults, start);
          return Err(FileError);
        }
        if c !in host.state.workers {
          r := Bury(patience, faults, start);
          return;
        }
      }
      r := TimeOut(patience, faults, start);
    }

    /** The child has been started and no poll so far has seen its record. */
    ghost predicate Unready(start: seq<Event>)
      reads this, host
    {
      && child.Some? && Happened(start, host.trace, Spawn(id, child.value)) && LeftAlone(start, host.trace, id)
      && forall i :: 0 <= i < |polls| ==> polls[i] != Some(Record(child.value, broker))
    }

    lemma StillWatching(start: seq<Event>)
      requires Unready(start)
      ensures child.Some? && Happened(start, host.trace, Spawn(id, child.value)) && LeftAlone(start, host.trace, id)
      ensures forall i :: 0 <= i < |polls| ==> polls[i] != Some(Record(child.value, broker))
    {
    }

    lemma Unread(start: seq<Event>)
      requires child.Some? && Happened(start, host.trace, Spawn(id, child.value)) && LeftAlone(start, host.trace, id)
      requires forall i :: 0 <= i < |polls| ==> polls[i] != Some(Record(child.value, broker))
      ensures Unready(start)
    {
    }

    lemma Connected(faults: set<Fault>, patience: nat, start: seq<Event>)
      requires child.Some? && Ended(Ok(Record(child.value, broker)))
      requires Happened(start, host.trace, Spawn(id, child.value)) && LeftAlone(start, host.trace, id)
      ensures Closed(Ok(Record(child.value, broker)), faults, patience, start)
    {
      hide Ended, Happened;
    }

    /** Returns with an error and leaves the child as it is. */
    method LeaveChild(ghost f: Fault, ghost patience: nat, ghost faults: set<Fault>, ghost start: seq<Event>)
      requires child.Some? && Valid(Launched(child.value)) && Unready(start)
      requires f in faults && f in {PollFails, KillFails}
      modifies host
      ensures Closed(Err(FileError), faults, patience, start) && old(host.trace) <= host.trace
    {
      hide Run, INITIAL, Happened, LeftAlone;
      ghost var middle := host.trace;
      Quit(Launched(child.value));
      LeftAloneOn(start, middle, host.trace, id);
      StartsBefore(start, host.trace, id);
      StartsBefore(middle, host.trace, id);
      StillHappened(start, middle, host.trace, Spawn(id, child.value));
    }

    /** The child is seen to have exited: its record is removed. */
    method Bury(patience: nat, faults: set<Fault>, ghost start: seq<Event>)
      returns (r: Result<Record, LaunchError>)
      requires child.Some? && Valid(Launched(child.value)) && Unready(start) && child.value !in host.state.workers
      modifies this`interference, host
      ensures Closed(r, faults, patience, start) && old(host.trace) <= host.trace
      ensures r == Err(if RemoveFails in faults then FileError else WorkerExited)
      ensures |interference| <= |old(interference)|
    {
      hide Run, INITIAL, Happened, LeftAlone, Unready;
      StillWatching(start);
      StartsBefore(start, host.trace, id);
      ghost var now := host.trace;
      HappenedLast(start, now, SeeExit(id));
      host.Do(SeeExit(id));
      ghost var seen := host.trace;
      var cleaned := RemoveStaleInfo(child.value, faults);
      StillHappened(start, seen, host.trace, SeeExit(id));
      StillHappened(start, now, host.trace, Spawn(id, child.value));
      r := Err(if cleaned then WorkerExited else FileError);
      BuriedWith(r, faults, patience, start);
    }

    /** Whatever failed about a dead child is accounted for. */
    lemma BuriedWith(r: Result<Record, LaunchError>, faults: set<Fault>, patience: nat, start: seq<Event>)
      requires Gone() && start <= host.trace && child.Some? && host.state.workers == map[]
      requires Happened(start, host.trace, Spawn(id, child.value))
      requires forall i :: 0 <= i < |polls| ==> polls[i] != Some(Record(child.value, broker))
      requires r.Err? && r.error in {FileError, WorkerExited, WorkerNotReady}
      requires r == Err(FileError) ==> exists f :: f in faults && f != SpawnFails
      requires r == Err(WorkerExited) ==> Happened(start, host.trace, SeeExit(id)) && host.state.record.None?
      requires r == Err(WorkerNotReady) ==> Happened(start, host.trace, KillChild(id)) && host.state.record.None?
      requires r == Err(WorkerNotReady) ==> |polls| == patience
      ensures Closed(r, faults, patience, start)
    {
      hide Gone, Happened;
    }

    /** Kills and reaps the child, then removes its record; `f` is the failure that led here. */
    method Terminate(ghost f: Fault, patience: nat, faults: set<Fault>, ghost start: seq<Event>)
      returns (r: Result<Record, LaunchError>)
      requires child.Some? && Valid(Launched(child.value)) && Unready(start) && f in faults && f != SpawnFails
      modifies this`interference, host
      ensures Closed(r, faults, patience, start) && old(host.trace) <= host.trace && r == Err(FileError)
      ensures |interference| <= |old(interference)|
    {
      hide Run, INITIAL, Happened, LeftAlone, Unready;
      if KillFails in faults {
        LeaveChild(KillFails, patience, faults, start);
        return Err(FileError);
      }
      StillWatching(start);
      StartsBefore(start, host.trace, id);
      ghost var now := host.trace;
      var cleaned := TerminateFailedStart(child.value, faults, start);
      StillHappened(start, now, host.trace, Spawn(id, child.value));
      r := Err(FileError);
      BuriedWith(r, faults, patience, start);
    }

    /** All polls are spent: the child is killed. */
    method TimeOut(patience: nat, faults: set<Fault>, ghost start: seq<Event>)
      returns (r: Result<Record, LaunchError>)
      requires child.Some? && Valid(Launched(child.value)) && Unready(start) && |polls| == patience
      modifies this`interference, host
      ensures Closed(r, faults, patience, start) && old(host.trace) <= host.trace
      ensures r == Err(if KillFails in faults || RemoveFails in faults then FileError else WorkerNotReady)
      ensures |interference| <= |old(interference)|
    {
      hide Run, INITIAL, Happened, LeftAlone, Unready;
      if KillFails in faults {
        LeaveChild(KillFails, patience, faults, start);
        return Err(FileError);
      }
      StillWatching(start);
      StartsBefore(start, host.trace, id);
      ghost var now := host.trace;
      var cleaned := TerminateFailedStart(child.value, faults, start);
      StillHappened(start, now, host.trace, Spawn(id, child.value));
      r := Err(if cleaned then WorkerNotReady else FileError);
      BuriedWith(r, faults, patience, start);
    }

    /** Kills and reaps the child, then removes its record. */
    method TerminateFailedStart(c: nat, faults: set<Fault>, ghost start: seq<Event>) returns (cleaned: bool)
      requires Valid(Launched(c)) && KillFails !in faults && start <= host.trace
      modifies this`interference, host
      ensures Gone() && host.state.workers == map[] && (cleaned ==> host.state.record.None?)
      ensures cleaned <==> RemoveFails !in faults
      ensures |interference| <= |old(interference)| && old(host.trace) <= host.trace
      ensures Happened(start, host.trace, KillChild(id))
    {
      hide Run, INITIAL, Happened;
      HappenedLast(start, host.trace, KillChild(id));
      host.Do(KillChild(id));
      ghost var killed := host.trace;
      cleaned := RemoveStaleInfo(c, faults);
      StillHappened(start, killed, host.trace, KillChild(id));
    }

    method RemoveStaleInfo(c: nat, faults: set<Fault>) returns (cleaned: bool)
      requires Valid(Reaped(c))
      modifies this`interference, host
      ensures Gone() && host.state.workers == map[] && (cleaned ==> host.state.record.None?)
      ensures cleaned <==> RemoveFails !in faults
      ensures |interference| <= |old(interference)| && old(host.trace) <= host.trace
    {
      hide Run, Step, Enabled, INITIAL, Happened;
      Pause(Reaped(c));
      ReapedIsDead(host.trace, host.state, id, c);
      if RemoveFails in faults {
        Quit(Reaped(c));
        return false;
      }
      Advance(RemoveFailed(id), Reaped(c), CleanedUp, host.trace);
      FailedStartLeavesNothing(host.trace, host.state, id);
      Quit(CleanedUp);
      cleaned := true;
    }
  }

  lemma StartsBefore(before: seq<Event>, after: seq<Event>, c: nat)
    requires LeftAlone(before, after, c)
    ensures before <= after
  {
  }

  lemma ReapedIsDead(trace: seq<Event>, s: State, c: nat, w: nat)
    requires Run(INITIAL, trace, s) && CliAt(s, c, Reaped(w))
    ensures s.workers == map[]
  {
    hide Run, HeldByWorkers, HeldByClis, Current, Honest, INITIAL;
    InitialInv();
    RunInv(INITIAL, trace, s);
    Owner(s, c);
  }

  lemma LastIsHonest(trace: seq<Event>, s: State)
    requires Run(INITIAL, trace, s) && s.successes != []
    ensures Last(s.successes).record == Record(Last(s.successes).relied, Last(s.successes).broker)
  {
    hide Run, Serialized, HeldByWorkers, HeldByClis, Current, Expected, INITIAL;
    InitialInv();
    RunInv(INITIAL, trace, s);
  }
}
