/**
 * The in-place transaction object: it validates, writes, renames, publishes to the live runtimes
 * and assigns the committed snapshot, in the source's order. Its ghost history is a run of the
 * step-by-step machine, so everything proved of runs holds of it at every intermediate step.
 */
module PolicyTransaction {
  import opened Common
  import opened PolicyDocument
  import opened PolicyDisk
  import opened PolicyMachine

  class MitmEngine {
    var policy: MitmConfig

    constructor (policy: MitmConfig)
      ensures this.policy == policy
    {
      this.policy := policy;
    }

    method ReplacePolicy(policy: MitmConfig)
      modifies this
      ensures this.policy == policy
    {
      this.policy := policy;
    }
  }

  class HooksRuntime {
    var config: HooksConfig

    constructor (config: HooksConfig)
      ensures this.config == config
    {
      this.config := config;
    }

    method Update(config: HooksConfig)
      modifies this
      ensures this.config == config
    {
      this.config := config;
    }
  }

  /** A validated route. Connections share the object that was current when they were made. */
  class NetworkSnapshot {
    var config: NetworkConfig
    var proxy: Option<Upstream>

    constructor (config: NetworkConfig, proxy: Option<Upstream>)
      ensures this.config == config && this.proxy == proxy
    {
      this.config, this.proxy := config, proxy;
    }
  }

  /** Route publisher shared by every ingress: a cell with the current snapshot. */
  class NetworkRuntime {
    var current: NetworkSnapshot
    const persisted: Option<NetworkConfig>

    constructor (snapshot: NetworkSnapshot, persisted: Option<NetworkConfig>)
      ensures current == snapshot && this.persisted == persisted
    {
      current := snapshot;
      this.persisted := persisted;
    }

    /** A proxy is built exactly for a valid upstream; an invalid one rejects the whole route. */
    static method Validate(rules: Rules, config: NetworkConfig) returns (r: Option<NetworkSnapshot>)
      ensures r.None? <==> config.upstream.Some? && !rules.upstreamValid(config.upstream.value)
      ensures r.Some? ==> fresh(r.value) && r.value.config == config && r.value.proxy == config.upstream
    {
      if config.upstream.Some? && !rules.upstreamValid(config.upstream.value) {
        return None;
      }
      var snapshot := new NetworkSnapshot(config, config.upstream);
      return Some(snapshot);
    }

    /** Resolves a durable override over the startup default; the override is kept apart from the route. */
    static method New(rules: Rules, startup: Option<Upstream>, persisted: Option<NetworkConfig>)
      returns (r: Option<NetworkRuntime>)
      ensures var route := if persisted.Some? then persisted.value else NetworkConfig(startup);
              && (r.None? <==> route.upstream.Some? && !rules.upstreamValid(route.upstream.value))
              && (r.Some? ==> fresh(r.value) && r.value.current.config == route && r.value.persisted == persisted)
    {
      var config := if persisted.Some? then persisted.value else NetworkConfig(startup);
      var snapshot := Validate(rules, config);
      if snapshot.None? {
        return None;
      }
      var runtime := new NetworkRuntime(snapshot.value, persisted);
      return Some(runtime);
    }

    /** Hands out the current snapshot itself, not a copy. */
    method Snapshot() returns (s: NetworkSnapshot)
      ensures s == current
    {
      s := current;
    }

    /** Moves the cell; no snapshot, published or retained, is written. */
    method Publish(snapshot: NetworkSnapshot)
      modifies this
      ensures current == snapshot
    {
      current := snapshot;
    }
  }

  /** A connection and the route snapshot it took when it was made. */
  class Connection {
    const route: NetworkSnapshot

    constructor (route: NetworkSnapshot)
      ensures this.route == route
    {
      this.route := route;
    }

    static method Open(network: NetworkRuntime) returns (c: Connection)
      ensures fresh(c) && c.route == network.current
    {
      var snapshot := network.Snapshot();
      c := new Connection(snapshot);
    }
  }

  /** The operations of a commit, in order, and the two that do not decide it. */
  datatype Operation =
    | PrepareDirectory | CreateFile | WriteData | SyncData | SyncBefore | RenameFile
    | SyncAfter | RemoveFile

  datatype Outcome = Outcome(operation: Operation, ok: bool)

  /** The policy path shows the file that one name showed, which is gone; nothing else has changed. */
  predicate MovedOnto(before: Directory, after: Directory, from: Name) {
    from in before && after == (before - {from})[Policy := before[from]]
  }

  /** Both directories show the same apart from some names. */
  predicate SameApartFrom(before: Disk, after: Disk, names: set<Name>) {
    before.views != [] && after.views != [] && Visible(after) - names == Visible(before) - names
  }

  /** A new temporary file is all that was added. */
  predicate StagedIn(before: Disk, after: Disk, nonce: nat) {
    SameApartFrom(before, after, {Temp(nonce)}) && Temp(nonce) !in Visible(before)
  }

  lemma SameApartFromBoth(a: Disk, b: Disk, c: Disk, names: set<Name>, more: set<Name>)
    requires SameApartFrom(a, b, names) && SameApartFrom(b, c, more)
    ensures SameApartFrom(a, c, names + more)
  {
    var all := names + more;
    assert Visible(a) - all == (Visible(a) - names) - more;
    assert Visible(c) - all == (Visible(c) - more) - names;
    assert (Visible(b) - names) - more == (Visible(b) - more) - names;
  }

  const COMMIT: seq<Operation> := [PrepareDirectory, CreateFile, WriteData, SyncData, SyncBefore, RenameFile]

  /** File operations on the policy directory; each may fail for reasons of its own. */
  class Volume {
    var disk: Disk
    /** The operations so far and their results. */
    var outcomes: seq<Outcome>

    constructor (disk: Disk)
      ensures this.disk == disk && outcomes == []
    {
      this.disk, outcomes := disk, [];
    }

    /** Creates or opens the parent directory. */
    method OpenDirectory() returns (ok: bool)
      modifies this`outcomes
      ensures outcomes == old(outcomes) + [Outcome(PrepareDirectory, ok)]
    {
      ok := *;
      outcomes := outcomes + [Outcome(PrepareDirectory, ok)];
    }

    method CreateNew(nonce: nat) returns (ok: bool)
      requires disk.views != []
      modifies this
      ensures outcomes == old(outcomes) + [Outcome(CreateFile, ok)]
      ensures ok ==> Temp(nonce) !in Visible(old(disk)) && disk == PolicyDisk.CreateNew(old(disk), Temp(nonce))
      ensures ok ==> disk.views != [] && Visible(disk) == Visible(old(disk))[Temp(nonce) := |old(disk.inodes)|]
      ensures !ok ==> disk == old(disk)
    {
      ok := *;
      ok := ok && Temp(nonce) !in Visible(disk);
      if ok {
        disk := PolicyDisk.CreateNew(disk, Temp(nonce));
      }
      outcomes := outcomes + [Outcome(CreateFile, ok)];
    }

    method Write(inode: nat, content: Content) returns (ok: bool, partial: Content)
      requires inode < |disk.inodes|
      modifies this
      ensures outcomes == old(outcomes) + [Outcome(WriteData, ok)]
      ensures disk == WriteFile(old(disk), inode, if ok then content else partial)
      ensures disk.inodes[inode] == Inode(if ok then content else partial, false) && disk.views == old(disk.views)
    {
      ok, partial := *, *;
      disk := WriteFile(disk, inode, if ok then content else partial);
      outcomes := outcomes + [Outcome(WriteData, ok)];
    }

    method SyncTemp(inode: nat) returns (ok: bool)
      requires inode < |disk.inodes|
      modifies this
      ensures outcomes == old(outcomes) + [Outcome(SyncData, ok)]
      ensures disk == if ok then SyncFile(old(disk), inode) else old(disk)
      ensures ok ==> disk.inodes[inode] == Inode(old(disk.inodes)[inode].content, true)
    {
      ok := *;
      if ok {
        disk := SyncFile(disk, inode);
      }
      outcomes := outcomes + [Outcome(SyncData, ok)];
    }

    method SyncParent(operation: Operation) returns (ok: bool)
      requires disk.views != []
      modifies this
      ensures outcomes == old(outcomes) + [Outcome(operation, ok)]
      ensures disk == if ok then SyncDirectory(old(disk)) else old(disk)
      ensures ok ==> disk == Disk(old(disk.inodes), [Visible(old(disk))])
    {
      ok := *;
      if ok {
        disk := SyncDirectory(disk);
      }
      outcomes := outcomes + [Outcome(operation, ok)];
    }

    method Install(nonce: nat) returns (ok: bool)
      requires disk.views != []
      modifies this
      ensures outcomes == old(outcomes) + [Outcome(RenameFile, ok)]
      ensures ok ==> Temp(nonce) in Visible(old(disk)) && disk == Rename(old(disk), Temp(nonce))
      ensures ok ==> disk.views != [] && MovedOnto(Visible(old(disk)), Visible(disk), Temp(nonce))
      ensures !ok ==> disk == old(disk)
    {
      ok := *;
      ok := ok && Temp(nonce) in Visible(disk);
      if ok {
        disk := Rename(disk, Temp(nonce));
      }
      outcomes := outcomes + [Outcome(RenameFile, ok)];
    }

    method RemoveTemp(nonce: nat) returns (ok: bool)
      requires disk.views != []
      modifies this
      ensures outcomes == old(outcomes) + [Outcome(RemoveFile, ok)]
      ensures disk == if ok then Remove(old(disk), Temp(nonce)) else old(disk)
      ensures disk.views != []
      ensures Visible(disk) == if ok then Visible(old(disk)) - {Temp(nonce)} else Visible(old(disk))
    {
      ok := *;
      if ok {
        disk := Remove(disk, Temp(nonce));
      }
      outcomes := outcomes + [Outcome(RemoveFile, ok)];
    }
  }

  /** Next came the commit operations from one place to another, and all went well. */
  predicate Went(before: seq<Outcome>, after: seq<Outcome>, from: nat, to: nat)
    requires from <= to <= |COMMIT|
  {
    && before <= after && |before| + (to - from) <= |after|
    && forall i :: from <= i < to ==> after[|before| + i - from] == Outcome(COMMIT[i], true)
  }

  /** Next came the commit operations from one place on, and one of them, before another place, failed. */
  ghost predicate Broke(before: seq<Outcome>, after: seq<Outcome>, from: nat, to: nat)
    requires from <= to <= |COMMIT|
  {
    exists k :: from <= k < to && BrokeAt(before, after, from, k)
  }

  predicate BrokeAt(before: seq<Outcome>, after: seq<Outcome>, from: nat, k: nat)
    requires from <= k < |COMMIT|
  {
    && Went(before, after, from, k)
    && |before| + (k - from) < |after| && after[|before| + (k - from)] == Outcome(COMMIT[k], false)
  }

  /** Later operations change neither verdict. */
  lemma LaterOutcomes(before: seq<Outcome>, middle: seq<Outcome>, after: seq<Outcome>, from: nat, k: nat, to: nat)
    requires from <= k <= to <= |COMMIT|
    requires Went(before, middle, from, k) && |middle| == |before| + (k - from) && middle <= after
    ensures Went(middle, after, k, to) ==> Went(before, after, from, to)
    ensures Broke(middle, after, k, to) ==> Broke(before, after, from, to)
  {
    hide COMMIT;
    if Broke(middle, after, k, to) {
      var i :| k <= i < to && BrokeAt(middle, after, k, i);
      assert BrokeAt(before, after, from, i);
    }
  }

  /** The operation just done decides: its failure breaks the commit, its success is one more that went well. */
  lemma OutcomeDecides(before: seq<Outcome>, middle: seq<Outcome>, after: seq<Outcome>, from: nat, k: nat, ok: bool)
    requires from <= k < |COMMIT|
    requires Went(before, middle, from, k) && |middle| == |before| + (k - from)
    requires middle + [Outcome(COMMIT[k], ok)] <= after
    ensures ok ==> Went(before, after, from, k + 1)
    ensures !ok ==> forall to :: k < to <= |COMMIT| ==> Broke(before, after, from, to)
  {
    hide COMMIT;
    assert after[|middle|] == (middle + [Outcome(COMMIT[k], ok)])[|middle|] == Outcome(COMMIT[k], ok);
    if !ok {
      assert BrokeAt(before, after, from, k);
    }
  }

  lemma NothingYet(before: seq<Outcome>)
    ensures forall k :: 0 <= k < |COMMIT| ==> Went(before, before, k, k)
  {
  }

  lemma BrokenStaysBroken(before: seq<Outcome>, after: seq<Outcome>, from: nat, k: nat, to: nat)
    requires from <= k <= to <= |COMMIT| && Broke(before, after, from, k)
    ensures Broke(before, after, from, to)
  {
    hide COMMIT, BrokeAt;
    var i :| from <= i < k && BrokeAt(before, after, from, i);
  }

  /** What came of the operations of staging, in the order in which they were tried. */
  lemma StageOutcomes(
    before: seq<Outcome>, created: seq<Outcome>, written: seq<Outcome>, after: seq<Outcome>, ok: bool)
    requires before <= created <= written <= after && |created| == |before| + 1
    requires Last(created).operation == CreateFile
    requires !Last(created).ok ==> !ok && written == created
    requires Last(created).ok ==> |written| == |created| + 1 && Last(written).operation == WriteData
    requires Last(created).ok && !Last(written).ok ==> !ok
    requires Last(created).ok && Last(written).ok ==> |written| < |after| && after[|written|] == Outcome(SyncData, ok)
    ensures if ok then Went(before, after, 1, 4) else Broke(before, after, 1, 4)
  {
    assert forall i :: 0 <= i < |written| ==> after[i] == written[i];
    assert forall i :: 0 <= i < |created| ==> written[i] == created[i];
    if !Last(created).ok {
      assert BrokeAt(before, after, 1, 1);
    } else if !Last(written).ok {
      assert BrokeAt(before, after, 1, 2);
    } else if !ok {
      assert BrokeAt(before, after, 1, 3);
    }
  }

  lemma CommitOutcomes(before: seq<Outcome>, synced: seq<Outcome>, after: seq<Outcome>, ok: bool)
    requires before <= synced <= after && |synced| == |before| + 1 && Last(synced).operation == SyncBefore
    requires !Last(synced).ok ==> !ok
    requires Last(synced).ok ==> |synced| < |after| && after[|synced|] == Outcome(RenameFile, ok)
    ensures if ok then Went(before, after, 4, 6) else Broke(before, after, 4, 6)
  {
    assert forall i :: 0 <= i < |synced| ==> after[i] == synced[i];
    if !Last(synced).ok {
      assert BrokeAt(before, after, 4, 4);
    } else if !ok {
      assert BrokeAt(before, after, 4, 5);
    }
  }

  lemma {:induction false} RunAppend(rules: Rules, s: System, trace: seq<Event>, t: System, e: Event)
    requires Run(rules, s, trace, t) && Enabled(t, e)
    ensures Run(rules, s, trace + [e], Step(rules, t, e))
    decreases |trace|
  {
    if trace == [] {
      assert trace + [e] == [e];
    } else {
      RunAppend(rules, Step(rules, s, trace[0]), trace[1..], t, e);
      assert (trace + [e])[1..] == trace[1..] + [e];
    }
  }

  /** The lock holder is never stuck. */
  lemma AlwaysAdvances(rules: Rules, s: System, io: Io)
    requires Inv(rules, s) && s.process.Some? && s.process.value.txn.Some?
    ensures Enabled(s, Advance(io))
  {
    hide HistoryInv, RoutingInv, AccessInv, Load;
  }

  datatype UpdateError = InvalidConfig | PersistFailed

  class RuntimePolicyTransaction {
    const rules: Rules
    const mitm: MitmEngine
    const hooks: HooksRuntime
    const network: NetworkRuntime
    const volume: Volume
    var current: Policies

    ghost const origin: System
    ghost var trace: seq<Event>
    ghost var system: System

    /** The ghost machine has run from its origin to `system`, which keeps the invariant. */
    ghost predicate Tracked()
      reads this`trace, this`system
    {
      && RulesSane(rules)
      && Inv(rules, origin) && Run(rules, origin, trace, system)
      && Inv(rules, system)
      && system.process.Some?
    }

    /** The real objects are in the machine's state. */
    ghost predicate Mirrored()
      reads this, mitm, hooks, network, network.current, volume
    {
      && system.process.Some?
      && var p := system.process.value;
      && volume.disk == system.disk
      && current == p.current
      && Live(mitm.policy, hooks.config, network.current.config) == p.live
    }

    ghost predicate Valid()
      reads this, mitm, hooks, network, network.current, volume
    {
      Tracked() && Mirrored() && system.process.value.txn.None? && !system.process.value.access.locked
    }

    /** Reads the committed snapshot back from the runtimes that a broker has just built. */
    constructor (rules: Rules, mitm: MitmEngine, hooks: HooksRuntime, network: NetworkRuntime, volume: Volume,
                 ghost origin: System, ghost trace: seq<Event>, ghost system: System)
      requires RulesSane(rules) && Inv(rules, origin) && Run(rules, origin, trace, system)
      requires system.process.Some? && system.process.value.txn.None? && !system.process.value.access.locked
      requires volume.disk == system.disk
      requires Live(mitm.policy, hooks.config, network.current.config) == system.process.value.live
      requires network.persisted == system.process.value.current.network
      ensures Valid()
      ensures this.mitm == mitm && this.hooks == hooks && this.network == network && this.volume == volume
      ensures current == Policies(mitm.policy, hooks.config, network.persisted)
      ensures this.system == system && this.trace == trace
    {
      this.rules, this.mitm, this.hooks, this.network, this.volume := rules, mitm, hooks, network, volume;
      this.current := Policies(mitm.policy, hooks.config, network.persisted);
      this.origin, this.trace, this.system := origin, trace, system;
      new;
      RunInv(rules, origin, trace, system);
    }

    /** Append one event to the ghost run. */
    ghost method Record(e: Event)
      requires Tracked() && Enabled(system, e) && Step(rules, system, e).process.Some?
      modifies this`trace, this`system
      ensures Tracked()
      ensures trace == old(trace) + [e] && system == Step(rules, old(system), e)
    {
      RunAppend(rules, origin, trace, system, e);
      StepInv(rules, system, e);
      trace := trace + [e];
      system := Step(rules, system, e);
    }

    /** One step of the lock holder. */
    ghost method Advanced(io: Io)
      requires Tracked() && system.process.value.txn.Some?
      modifies this`trace, this`system
      ensures Tracked() && trace == old(trace) + [Advance(io)]
      ensures var p := old(system).process.value;
              && CanAdvance(CoreOf(old(system), p), p.txn.value)
              && var (k, t) := AdvanceTxn(rules, CoreOf(old(system), p), p.txn.value, io);
                 system == WithCore(AroundTask(p, p.txn.value, t.None?), k, t)
    {
      AlwaysAdvances(rules, system, io);
      Record(Advance(io));
    }

    ghost predicate At(pc: Pc)
      reads this`system
    {
      system.process.Some? && system.process.value.txn.Some? && system.process.value.txn.value.pc == pc
    }

    /** A queued caller takes the lock and moves the guard into the task that runs this object. */
    ghost method Lock(client: nat, update: Update)
      requires Tracked() && Mirrored() && !system.process.value.access.locked
      requires Get(system.process.value.access.callers, client) == Some(Queued(update))
      modifies this`trace, this`system
      ensures Tracked() && Mirrored() && At(Validate)
      ensures system.process.value.txn.value.update == update
      ensures Committed(system.log) == Committed(old(system.log)) && system.installed == old(system.installed)
      ensures |trace| == |old(trace)| + 2 && old(trace) <= trace
    {
      hide Inv, Run, Committed;
      Record(Acquire(client));
      CommittedAppend(system.log, Attempt(client, update, false));
      Record(Detach(client));
    }

    /** The file on disk, as the invariant knows it. */
    lemma FileIsNewest()
      requires Tracked()
      ensures WellFormed(system.disk) && system.installed != [] && PolicyFile(system.disk) == Last(system.installed)
    {
    }

    /** A commit succeeds exactly if none of the operations it needs fails. */
    ghost predicate Verdict(ok: bool, before: seq<Outcome>)
      reads volume
    {
      if ok then Went(before, volume.outcomes, 0, |COMMIT|) else Broke(before, volume.outcomes, 0, |COMMIT|)
    }

    /** The temporary file is gone unless just its removal failed, and no other name was touched. */
    ghost predicate Swept(before: Disk, nonce: nat)
      reads volume
    {
      && SameApartFrom(before, volume.disk, {Temp(nonce)})
      && (Temp(nonce) in Visible(volume.disk) ==>
            volume.outcomes != [] && Last(volume.outcomes) == Outcome(RemoveFile, false))
    }

    /** The policy path shows another file, and no temporary file is left. */
    ghost predicate Replaced(before: Disk, nonce: nat)
      reads volume
    {
      && SameApartFrom(before, volume.disk, {Policy})
      && Policy in Visible(volume.disk) && Temp(nonce) !in Visible(volume.disk)
    }

    /** The clean-up was tried. */
    ghost predicate Removed(before: Disk, nonce: nat)
      reads volume
    {
      Swept(before, nonce) && volume.outcomes != [] && Last(volume.outcomes).operation == RemoveFile
    }

    /** The temporary file has become the policy file. */
    ghost predicate MovedIn(before: Disk, nonce: nat)
      reads volume
    {
      && SameApartFrom(before, volume.disk, {Policy, Temp(nonce)})
      && Policy in Visible(volume.disk) && Temp(nonce) !in Visible(volume.disk)
    }

    lemma SweptSince(before: Disk, now: Disk, nonce: nat)
      requires Swept(now, nonce)
      requires SameApartFrom(before, now, {Temp(nonce)}) || SameApartFrom(before, now, {})
      ensures Swept(before, nonce)
    {
      var names := if SameApartFrom(before, now, {}) then {} else {Temp(nonce)};
      SameApartFromBoth(before, now, volume.disk, names, {Temp(nonce)});
      assert names + {Temp(nonce)} == {Temp(nonce)};
    }

    lemma MovedInSince(before: Disk, now: Disk, nonce: nat)
      requires SameApartFrom(before, now, {} + {Policy, Temp(nonce)}) && SameApartFrom(now, volume.disk, {})
      requires Policy in Visible(now) && Temp(nonce) !in Visible(now)
      ensures MovedIn(before, nonce)
    {
      assert {} + {Policy, Temp(nonce)} == {Policy, Temp(nonce)};
      SameApartFromBoth(before, now, volume.disk, {Policy, Temp(nonce)}, {});
      assert {Policy, Temp(nonce)} + {} == {Policy, Temp(nonce)};
      assert Visible(now) - {} == Visible(now) && Visible(volume.disk) - {} == Visible(volume.disk);
    }

    lemma TidySince(ok: bool, before: Disk, now: Disk, nonce: nat)
      requires StagedIn(before, now, nonce)
      requires if ok then MovedIn(now, nonce) else Removed(now, nonce)
      ensures Tidy(ok, before, nonce)
    {
      if ok {
        SameApartFromBoth(before, now, volume.disk, {Temp(nonce)}, {Policy, Temp(nonce)});
        assert {Temp(nonce)} + {Policy, Temp(nonce)} == {Policy, Temp(nonce)};
        var a, b := Visible(before), Visible(volume.disk);
        assert a - {Policy} == a - {Policy, Temp(nonce)} && b - {Policy} == b - {Policy, Temp(nonce)};
      } else {
        SweptSince(before, now, nonce);
      }
    }

    /** What a commit leaves in the directory: no temporary file, unless its removal was tried and failed. */
    ghost predicate Tidy(ok: bool, before: Disk, nonce: nat)
      reads volume
    {
      if ok then Replaced(before, nonce)
      else if volume.outcomes != [] && Last(volume.outcomes) == Outcome(PrepareDirectory, false)
      then volume.disk == before
      else Swept(before, nonce)
    }

    lemma NothingStaged(before: Disk, nonce: nat)
      requires volume.outcomes != []
      requires Last(volume.outcomes) != Outcome(PrepareDirectory, false) ==> Removed(before, nonce)
      requires Last(volume.outcomes) == Outcome(PrepareDirectory, false) ==> volume.disk == before
      ensures Tidy(false, before, nonce)
    {
      hide Swept;
    }

    /** Removes the temporary file after a failure and releases the lock. */
    method CleanUp(nonce: nat)
      requires Tracked() && Mirrored() && At(Cleanup) && system.process.value.txn.value.temp == nonce
      modifies this`trace, this`system, volume
      ensures Valid() && current == old(current) && old(trace) <= trace && old(volume.outcomes) <= volume.outcomes
      ensures system.installed == old(system.installed) && system.log == old(system.log)
      ensures system.process.value.live == old(system.process.value.live)
      ensures Swept(old(volume.disk), nonce)
      ensures volume.outcomes != [] && Last(volume.outcomes).operation == RemoveFile
    {
      hide Inv, Run, Encode, LiveOf, Apply, Committed, UpdateValid, PublishTo;
      FileIsNewest();
      var ok := volume.RemoveTemp(nonce);
      Advanced(Io(ok, nonce, Unparsable));
    }

    /** The same transaction, further on: only its step and its temporary file differ. */
    ghost predicate SameTxn(before: System)
      reads this
    {
      && before.process.Some? && before.process.value.txn.Some?
      && system.process.Some? && system.process.value.txn.Some?
      && var t, t' := before.process.value.txn.value, system.process.value.txn.value;
      && t' == t.(pc := t'.pc, temp := t'.temp, inode := t'.inode)
    }

    /** A failed commit lets go of the lock and leaves history and live state as they were. */
    ghost predicate Untouched(before: System)
      reads this
    {
      && system.installed == before.installed && system.log == before.log
      && before.process.Some? && system.process.Some?
      && system.process.value.live == before.process.value.live
    }

    /** One file operation on behalf of the transaction: on failure only the clean-up is left to do. */
    ghost predicate Did(before: System, ok: bool, pc: Pc)
      reads this
    {
      Tracked() && Untouched(before) && SameTxn(before) && At(if ok then pc else Cleanup)
      && system.process.value.current == before.process.value.current
    }

    method CreateTemp(nonce: nat) returns (ok: bool)
      requires Tracked() && Mirrored() && At(Create)
      modifies this`trace, this`system, volume
      ensures Mirrored() && old(trace) <= trace && Did(old(system), ok, Write)
      ensures volume.outcomes == old(volume.outcomes) + [Outcome(CreateFile, ok)]
      ensures system.process.value.txn.value.temp == nonce
      ensures ok ==> system.process.value.txn.value.inode == |old(volume.disk.inodes)|
      ensures SameApartFrom(old(volume.disk), volume.disk, {Temp(nonce)})
      ensures ok ==> Temp(nonce) !in Visible(old(volume.disk))
    {
      hide Inv, Run, Encode, LiveOf, Apply, Committed;
      FileIsNewest();
      ok := volume.CreateNew(nonce);
      Advanced(Io(ok, nonce, Unparsable));
    }

    method WriteTemp(inode: nat, candidate: Policies) returns (ok: bool)
      requires Tracked() && Mirrored() && At(Write)
      requires system.process.value.txn.value.inode == inode && system.process.value.txn.value.candidate == candidate
      modifies this`trace, this`system, volume
      ensures Mirrored() && old(trace) <= trace && Did(old(system), ok, SyncTemp)
      ensures volume.outcomes == old(volume.outcomes) + [Outcome(WriteData, ok)]
      ensures SameApartFrom(old(volume.disk), volume.disk, {})
      ensures system.process.value.txn.value ==
              old(system.process.value.txn.value).(pc := if ok then SyncTemp else Cleanup)
    {
      hide Inv, Run, Encode, LiveOf, Apply, Committed;
      AlwaysAdvances(rules, system, Io(true, 0, Unparsable));
      var partial: Content;
      ok, partial := volume.Write(inode, Encode(candidate));
      Advanced(Io(ok, 0, partial));
    }

    method FlushTemp(inode: nat) returns (ok: bool)
      requires Tracked() && Mirrored() && At(SyncTemp) && system.process.value.txn.value.inode == inode
      modifies this`trace, this`system, volume
      ensures Mirrored() && old(trace) <= trace && Did(old(system), ok, SyncParent)
      ensures volume.outcomes == old(volume.outcomes) + [Outcome(SyncData, ok)]
      ensures SameApartFrom(old(volume.disk), volume.disk, {})
      ensures system.process.value.txn.value ==
              old(system.process.value.txn.value).(pc := if ok then SyncParent else Cleanup)
    {
      hide Inv, Run, Encode, LiveOf, Apply, Committed;
      AlwaysAdvances(rules, system, Io(true, 0, Unparsable));
      ok := volume.SyncTemp(inode);
      Advanced(Io(ok, 0, Unparsable));
    }

    method FlushParent() returns (ok: bool)
      requires Tracked() && Mirrored() && At(SyncParent)
      modifies this`trace, this`system, volume
      ensures Mirrored() && old(trace) <= trace && Did(old(system), ok, Install)
      ensures volume.outcomes == old(volume.outcomes) + [Outcome(SyncBefore, ok)]
      ensures SameApartFrom(old(volume.disk), volume.disk, {})
      ensures system.process.value.txn.value ==
              old(system.process.value.txn.value).(pc := if ok then Install else Cleanup)
    {
      hide Inv, Run, Encode, LiveOf, Apply, Committed;
      FileIsNewest();
      ok := volume.SyncParent(SyncBefore);
      Advanced(Io(ok, 0, Unparsable));
    }

    /** The rename, which is the commit point. */
    method InstallTemp(nonce: nat, candidate: Policies) returns (ok: bool)
      requires Tracked() && Mirrored() && At(Install)
      requires system.process.value.txn.value.temp == nonce && system.process.value.txn.value.candidate == candidate
      modifies this`trace, this`system, volume
      ensures Tracked() && Mirrored() && old(trace) <= trace && SameTxn(old(system))
      ensures system.process.value.txn.value.temp == nonce
      ensures At(if ok then Confirm else Cleanup) && volume.outcomes == old(volume.outcomes) + [Outcome(RenameFile, ok)]
      ensures system.process.value.live == old(system).process.value.live
      ensures system.process.value.current == old(system).process.value.current
      ensures !ok ==> Untouched(old(system)) && SameApartFrom(old(volume.disk), volume.disk, {})
      ensures ok ==> system.installed == old(system.installed) + [Some(Encode(candidate))]
      ensures ok ==> SameApartFrom(old(volume.disk), volume.disk, {Policy, Temp(nonce)})
      ensures ok ==> Policy in Visible(volume.disk) && Temp(nonce) !in Visible(volume.disk)
    {
      hide Inv, Run, Encode, LiveOf, Apply, Committed;
      FileIsNewest();
      ok := volume.Install(nonce);
      Advanced(Io(ok, nonce, Unparsable));
      if ok {
        InstalledCandidate(candidate);
      }
    }

    /** The sync after the rename; its failure is tolerated. */
    method ConfirmInstall()
      requires Tracked() && Mirrored() && At(Confirm)
      modifies this`trace, this`system, volume
      ensures Mirrored() && old(trace) <= trace && Did(old(system), true, Publish)
      ensures |volume.outcomes| == |old(volume.outcomes)| + 1 && old(volume.outcomes) <= volume.outcomes
      ensures SameApartFrom(old(volume.disk), volume.disk, {})
    {
      hide Inv, Run, Encode, LiveOf, Apply, Committed;
      FileIsNewest();
      var confirmed := volume.SyncParent(SyncAfter);
      Advanced(Io(confirmed, 0, Unparsable));
    }

    /** Creates, fills and syncs the temporary file. */
    method Stage(candidate: Policies, nonce: nat) returns (ok: bool)
      requires Tracked() && Mirrored() && At(Create) && system.process.value.txn.value.candidate == candidate
      modifies this`trace, this`system, volume
      ensures Tracked() && Mirrored() && old(trace) <= trace && current == old(current)
      ensures Untouched(old(system)) && old(volume.outcomes) <= volume.outcomes
      ensures ok ==> At(SyncParent) && SameTxn(old(system)) && system.process.value.txn.value.temp == nonce
      ensures ok ==> Went(old(volume.outcomes), volume.outcomes, 1, 4)
      ensures ok ==> |volume.outcomes| == |old(volume.outcomes)| + 3
      ensures !ok ==> Valid() && Broke(old(volume.outcomes), volume.outcomes, 1, 4)
      ensures if ok then StagedIn(old(volume.disk), volume.disk, nonce) else Removed(old(volume.disk), nonce)
    {
      hide Inv, Run, Encode, AdvanceTxn, Broke, Went, SameApartFrom, Visible, Swept;
      ghost var before, empty := volume.outcomes, volume.disk;
      var inode := |volume.disk.inodes|;
      assert {Temp(nonce)} + {} == {Temp(nonce)};
      ok := CreateTemp(nonce);
      ghost var created, now := volume.outcomes, volume.disk;
      if ok {
        ok := WriteTemp(inode, candidate);
        SameApartFromBoth(empty, now, volume.disk, {Temp(nonce)}, {});
        now := volume.disk;
      }
      ghost var written := volume.outcomes;
      if ok {
        ok := FlushTemp(inode);
        SameApartFromBoth(empty, now, volume.disk, {Temp(nonce)}, {});
        now := volume.disk;
      }
      if !ok {
        CleanUp(nonce);
        SweptSince(empty, now, nonce);
      }
      StageOutcomes(before, created, written, volume.outcomes, ok);
    }

    /** Syncs the directory, renames the temporary file over the policy path and tries to sync again. */
    method Commit(candidate: Policies, nonce: nat) returns (ok: bool)
      requires Tracked() && Mirrored() && At(SyncParent)
      requires system.process.value.txn.value.candidate == candidate && system.process.value.txn.value.temp == nonce
      modifies this`trace, this`system, volume
      ensures Tracked() && Mirrored() && old(trace) <= trace && current == old(current)
      ensures old(volume.outcomes) <= volume.outcomes
      ensures system.process.value.live == old(system.process.value.live)
      ensures ok ==> At(Publish) && SameTxn(old(system))
      ensures ok ==> system.installed == old(system.installed) + [Some(Encode(candidate))]
      ensures !ok ==> Valid() && Untouched(old(system))
      ensures ok ==> Went(old(volume.outcomes), volume.outcomes, 4, 6)
      ensures !ok ==> Broke(old(volume.outcomes), volume.outcomes, 4, 6)
      ensures if ok then MovedIn(old(volume.disk), nonce) else Removed(old(volume.disk), nonce)
    {
      hide Inv, Run, Encode, AdvanceTxn, Broke, Went, SameApartFrom, Visible, Swept, MovedIn;
      ghost var before, staged := volume.outcomes, volume.disk;
      var none: set<Name> := {};
      assert none + none == none;
      ok := FlushParent();
      ghost var synced, now := volume.outcomes, volume.disk;
      if ok {
        ok := InstallTemp(nonce, candidate);
        SameApartFromBoth(staged, now, volume.disk, {}, if ok then {Policy, Temp(nonce)} else {});
        now := volume.disk;
      }
      if ok {
        ConfirmInstall();
        MovedInSince(staged, now, nonce);
      } else {
        CleanUp(nonce);
        SweptSince(staged, now, nonce);
      }
      CommitOutcomes(before, synced, volume.outcomes, ok);
    }

    /** The durable commit: everything up to and including the attempted sync after the rename. */
    method Persist(candidate: Policies, nonce: nat) returns (ok: bool)
      requires Tracked() && Mirrored() && At(Prepare) && system.process.value.txn.value.candidate == candidate
      modifies this`trace, this`system, volume
      ensures Tracked() && Mirrored() && old(trace) <= trace && current == old(current)
      ensures system.process.value.live == old(system.process.value.live)
      ensures ok ==> At(Publish) && SameTxn(old(system))
      ensures ok ==> system.installed == old(system.installed) + [Some(Encode(candidate))]
      ensures !ok ==> Valid() && Untouched(old(system))
      ensures Verdict(ok, old(volume.outcomes)) && Tidy(ok, old(volume.disk), nonce)
    {
      hide Inv, Run, Went, Broke, StagedIn, MovedIn, Swept, Tidy;
      ghost var before, empty := volume.outcomes, volume.disk;
      ok := volume.OpenDirectory();
      Advanced(Io(ok, nonce, Unparsable));
      NothingYet(before);
      OutcomeDecides(before, before, volume.outcomes, 0, 0, ok);
      if !ok {
        NothingStaged(empty, nonce);
        return;
      }
      ghost var prepared := volume.outcomes;
      ok := Stage(candidate, nonce);
      LaterOutcomes(before, prepared, volume.outcomes, 0, 1, 4);
      if !ok {
        BrokenStaysBroken(before, volume.outcomes, 0, 4, 6);
        NothingStaged(empty, nonce);
        return;
      }
      ghost var staged, filled := volume.outcomes, volume.disk;
      ok := Commit(candidate, nonce);
      LaterOutcomes(before, staged, volume.outcomes, 0, 4, 6);
      TidySince(ok, empty, filled, nonce);
    }

    lemma InstalledCandidate(candidate: Policies)
      requires Tracked() && At(Confirm) && system.process.value.txn.value.candidate == candidate
      ensures WellFormed(system.disk) && system.installed != [] && Last(system.installed) == Some(Encode(candidate))
    {
    }

    /** The validation verdict: the candidate is built, or the lock is let go at once. */
    ghost method Judged()
      requires Tracked() && Mirrored() && At(Validate)
      modifies this`trace, this`system
      ensures Tracked() && Mirrored() && Untouched(old(system)) && old(trace) <= trace
      ensures var t := old(system.process.value.txn.value);
              if UpdateValid(rules, t.update) then
                At(Prepare)
                && system.process.value.txn.value == t.(candidate := Apply(current, t.update), pc := Prepare)
              else
                Valid()
    {
      hide Inv, Run, Encode, LiveOf, Apply, UpdateValid;
      Advanced(Io(true, 0, Unparsable));
    }

    ghost method Published()
      requires Tracked() && At(Publish)
      modifies this`trace, this`system
      ensures Tracked() && At(Assign) && SameTxn(old(system)) && old(trace) <= trace
      ensures system.installed == old(system.installed) && system.disk == old(system.disk)
      ensures var p := old(system).process.value;
              && system.process.value.live == PublishTo(p.live, p.txn.value.update)
              && system.process.value.current == p.current
    {
      hide Inv, Run, Encode, LiveOf, Apply, UpdateValid, PublishTo;
      Advanced(Io(true, 0, Unparsable));
    }

    ghost method Assigned()
      requires Tracked() && At(Assign)
      modifies this`trace, this`system
      ensures Tracked() && system.process.value.txn.None? && Untouched(old(system)) && old(trace) <= trace
      ensures !system.process.value.access.locked
      ensures system.disk == old(system.disk)
      ensures system.process.value.current == old(system.process.value.txn.value.candidate)
    {
      hide Inv, Run, Encode, LiveOf, Apply, UpdateValid, PublishTo;
      Advanced(Io(true, 0, Unparsable));
    }

    /** An update whose validation failed: the lock is taken and let go. */
    ghost method Refuse(client: nat, update: Update)
      requires Valid() && Get(system.process.value.access.callers, client) == Some(Queued(update))
      requires !UpdateValid(rules, update)
      modifies this`trace, this`system
      ensures Valid() && old(trace) <= trace && system.installed == old(system.installed)
      ensures system.process.value.live == old(system.process.value.live)
    {
      hide Inv, Run, Encode, Committed, AdvanceTxn, LiveOf, UpdateValid;
      Lock(client, update);
      Judged();
    }

    /** A validated update up to its durable commit, still holding the lock if that succeeded. */
    method Submit(ghost client: nat, ghost update: Update, candidate: Policies, nonce: nat) returns (ok: bool)
      requires Valid() && Get(system.process.value.access.callers, client) == Some(Queued(update))
      requires UpdateValid(rules, update) && candidate == Apply(current, update)
      modifies this`trace, this`system, volume
      ensures Tracked() && Mirrored() && old(trace) <= trace && current == old(current)
      ensures system.process.value.live == old(system.process.value.live)
      ensures if ok then CommittedAs(update, candidate) else Valid()
      ensures Verdict(ok, old(volume.outcomes)) && Tidy(ok, old(volume.disk), nonce)
      ensures system.installed == old(system.installed) + if ok then [Some(Encode(candidate))] else []
    {
      hide Inv, Run, Encode, Committed, AdvanceTxn, LiveOf, UpdateValid, Apply, Tidy;
      Lock(client, update);
      Judged();
      ok := Persist(candidate, nonce);
    }

    /** The commit is done and nothing else of the update is. */
    ghost predicate CommittedAs(update: Update, candidate: Policies)
      reads this`system
    {
      && At(Publish)
      && system.process.value.txn.value.update == update
      && system.process.value.txn.value.candidate == candidate
    }

    /** The two memory steps after a commit, once the real publication and assignment have been made. */
    ghost method Finish(update: Update, candidate: Policies)
      requires Tracked() && CommittedAs(update, candidate)
      modifies this`trace, this`system
      ensures Tracked() && system.process.Some? && system.process.value.txn.None? && old(trace) <= trace
      ensures !system.process.value.access.locked
      ensures system.installed == old(system.installed) && system.disk == old(system.disk)
      ensures system.process.value.live == PublishTo(old(system.process.value.live), update)
      ensures system.process.value.current == candidate
    {
      hide Inv, Run, Encode, Committed, AdvanceTxn, LiveOf, PublishTo;
      Published();
      Assigned();
    }

    method UpdateNetwork(ghost client: nat, config: NetworkConfig, nonce: nat)
      returns (r: Result<NetworkConfig, UpdateError>)
      requires Valid() && Get(system.process.value.access.callers, client) == Some(Queued(SetNetwork(config)))
      modifies this`trace, this`system, this`current, network, volume
      ensures Valid() && old(trace) <= trace
      ensures r.Ok? ==> r.value == config && current == Policies(old(current).mitm, old(current).hooks, Some(config))
      ensures r.Ok? ==> fresh(network.current)
      ensures r.Ok? ==> network.current.config == config && network.current.proxy == config.upstream
      ensures r.Ok? ==> system.installed == old(system.installed) + [Some(Encode(current))]
      ensures r.Err? ==> current == old(current) && network.current == old(network.current)
      ensures r.Err? ==> system.installed == old(system.installed)
      ensures r != Err(InvalidConfig) ==> Verdict(r.Ok?, old(volume.outcomes)) && Tidy(r.Ok?, old(volume.disk), nonce)
      ensures r == Err(InvalidConfig) <==> config.upstream.Some? && !rules.upstreamValid(config.upstream.value)
      ensures r == Err(InvalidConfig) ==> volume.disk == old(volume.disk)
    {
      hide Inv, Run, Encode, Committed, AdvanceTxn, LiveOf, Tracked, Tidy;
      var validated := NetworkRuntime.Validate(rules, config);
      if validated.None? {
        Refuse(client, SetNetwork(config));
        return Err(InvalidConfig);
      }
      var candidate := current.(network := Some(config));
      var ok := Submit(client, SetNetwork(config), candidate, nonce);
      if !ok {
        return Err(PersistFailed);
      }
      network.Publish(validated.value);
      current := candidate;
      Finish(SetNetwork(config), candidate);
      return Ok(config);
    }

    method UpdateMitm(ghost client: nat, config: MitmConfig, nonce: nat) returns (r: Result<MitmConfig, UpdateError>)
      requires Valid() && Get(system.process.value.access.callers, client) == Some(Queued(SetMitm(config)))
      modifies this`trace, this`system, this`current, mitm, volume
      ensures Valid() && old(trace) <= trace
      ensures r.Ok? ==> r.value == config && mitm.policy == config
      ensures r.Ok? ==> current == Policies(config, old(current).hooks, old(current).network)
      ensures r.Ok? ==> system.installed == old(system.installed) + [Some(Encode(current))]
      ensures r.Err? ==> current == old(current) && mitm.policy == old(mitm.policy)
      ensures r.Err? ==> system.installed == old(system.installed)
      ensures r != Err(InvalidConfig) ==> Verdict(r.Ok?, old(volume.outcomes)) && Tidy(r.Ok?, old(volume.disk), nonce)
      ensures !rules.mitmValid(config) <==> r == Err(InvalidConfig)
      ensures r == Err(InvalidConfig) ==> volume.disk == old(volume.disk)
    {
      hide Inv, Run, Encode, Committed, AdvanceTxn, LiveOf, Tracked, Tidy;
      if !rules.mitmValid(config) {
        Refuse(client, SetMitm(config));
        return Err(InvalidConfig);
      }
      var candidate := Policies(config, current.hooks, current.network);
      var ok := Submit(client, SetMitm(config), candidate, nonce);
      if !ok {
        return Err(PersistFailed);
      }
      mitm.ReplacePolicy(config);
      current := candidate;
      Finish(SetMitm(config), candidate);
      return Ok(current.mitm);
    }

    method UpdateHooks(ghost client: nat, config: HooksConfig, nonce: nat) returns (r: Result<HooksConfig, UpdateError>)
      requires Valid() && Get(system.process.value.access.callers, client) == Some(Queued(SetHooks(config)))
      modifies this`trace, this`system, this`current, hooks, volume
      ensures Valid() && old(trace) <= trace
      ensures r.Ok? ==> r.value == config && hooks.config == config
      ensures r.Ok? ==> current == Policies(old(current).mitm, config, old(current).network)
      ensures r.Ok? ==> system.installed == old(system.installed) + [Some(Encode(current))]
      ensures r.Err? ==> r.error == PersistFailed && current == old(current) && hooks.config == old(hooks.config)
      ensures r.Err? ==> system.installed == old(system.installed)
      ensures r != Err(InvalidConfig) ==> Verdict(r.Ok?, old(volume.outcomes)) && Tidy(r.Ok?, old(volume.disk), nonce)
    {
      hide Inv, Run, Encode, Committed, AdvanceTxn, LiveOf, Tracked, Tidy;
      var candidate := Policies(current.mitm, config, current.network);
      var ok := Submit(client, SetHooks(config), candidate, nonce);
      if !ok {
        return Err(PersistFailed);
      }
      hooks.Update(candidate.hooks);
      current := candidate;
      Finish(SetHooks(config), candidate);
      return Ok(config);
    }
  }

  /** A connection made before a route update keeps its route; one made after it has the new one. */
  method ConnectAroundUpdate(t: RuntimePolicyTransaction, ghost client: nat, config: NetworkConfig, nonce: nat)
    returns (early: Connection, r: Result<NetworkConfig, UpdateError>, late: Connection)
    requires t.Valid()
    requires Get(t.system.process.value.access.callers, client) == Some(Queued(SetNetwork(config)))
    modifies t`trace, t`system, t`current, t.network, t.volume
    ensures t.Valid() && early.route.config == old(t.network.current.config)
    ensures late.route.config == if r.Ok? then config else old(t.network.current.config)
  {
    hide Inv, Run, Encode, AdvanceTxn, Broke, Went;
    early := Connection.Open(t.network);
    r := t.UpdateNetwork(client, config, nonce);
    late := Connection.Open(t.network);
  }

  /**
   * Broker start-up: the file is loaded, the override resolved over the startup route, the runtimes
   * built and the committed snapshot read back from them. It is the machine's start step.
   */
  method StartBroker(rules: Rules, volume: Volume, startup: Option<Upstream>,
                     ghost origin: System, ghost trace: seq<Event>, ghost system: System)
    returns (r: Option<RuntimePolicyTransaction>)
    requires RulesSane(rules) && Inv(rules, origin) && Run(rules, origin, trace, system)
    requires system.process.None? && volume.disk == system.disk && system.disk.views != []
    ensures var loaded := Load(rules, PolicyFile(volume.disk));
            if loaded.Err? then r.None?
            else
              var override := loaded.value.network;
              var route := if override.Some? then override.value else NetworkConfig(startup);
              && (r.None? <==> route.upstream.Some? && !rules.upstreamValid(route.upstream.value))
              && (r.Some? ==> r.value.network.current.config == route)
              && (r.Some? ==> r.value.mitm.policy == loaded.value.mitm && r.value.hooks.config == loaded.value.hooks)
    ensures r.Some? ==> fresh(r.value) && r.value.Valid() && r.value.volume == volume
    ensures r.Some? ==> r.value.trace == trace + [Boot(startup)]
    ensures r.Some? ==> Ok(r.value.current) == Load(rules, PolicyFile(volume.disk))
  {
    var loaded := Load(rules, PolicyFile(volume.disk));
    if loaded.Err? {
      return None;
    }
    var p := loaded.value;
    var network := NetworkRuntime.New(rules, startup, p.network);
    if network.None? {
      return None;
    }
    var mitm := new MitmEngine(p.mitm);
    var hooks := new HooksRuntime(p.hooks);
    RunAppend(rules, origin, trace, system, Boot(startup));
    var transaction := new RuntimePolicyTransaction(
      rules, mitm, hooks, network.value, volume, origin, trace + [Boot(startup)], Step(rules, system, Boot(startup)));
    return Some(transaction);
  }
}
