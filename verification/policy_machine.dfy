/**
 * The durable policy transaction as a transition system: every file operation, publication and
 * assignment is one step, clients queue and are cancelled between steps, and the broker process
 * or the whole machine can fail before any step.
 */
module PolicyMachine {
  import opened Common
  import opened PolicyDocument
  import opened PolicyDisk

  /** Next thing the lock holder does. */
  datatype Pc =
    | Validate | Prepare | Create | Write | SyncTemp | SyncParent | Install | Confirm | Publish | Assign | Cleanup

  /** The detached task, which owns the guard of the transaction lock until it ends. */
  datatype Txn = Txn(client: nat, update: Update, candidate: Policies, temp: nat, inode: nat, pc: Pc)

  /**
   * A request future between two polls, by what it owns: nothing yet, the owned guard, or only the
   * handle of the task the guard was moved into. `attempt` is the place of its transaction in the log,
   * and `ok` the result that the ended task has left in the handle.
   */
  datatype Caller =
    | Queued(update: Update)
    | Holding(update: Update)
    | Awaiting(attempt: nat)
    | Answered(attempt: nat, ok: bool)

  /** The lock's own flag, and the request futures that are still alive. */
  datatype Access = Access(locked: bool, callers: map<nat, Caller>)

  /** Dropping a future drops what it owns: a guard unlocks, a task handle does nothing. */
  function Dropped(a: Access, c: nat): Access {
    Access(a.locked && !Holds(a, c), a.callers - {c})
  }

  /** The task of `c` ends: it drops its guard, and whoever still waits for it finds the result. */
  function TaskEnded(a: Access, c: nat, ok: bool): Access {
    Access(false, if IsAwaiting(a, c) then a.callers[c := Answered(a.callers[c].attempt, ok)] else a.callers)
  }

  predicate IsAwaiting(a: Access, c: nat) {
    c in a.callers && a.callers[c].Awaiting?
  }

  predicate Holds(a: Access, c: nat) {
    c in a.callers && a.callers[c].Holding?
  }

  /** Allocated route snapshots, the one the shared cell points to, and the one each flow retains. */
  datatype Routing = Routing(snapshots: seq<NetworkConfig>, cell: nat, flows: map<nat, nat>)

  function PublishRoute(r: Routing, network: NetworkConfig): Routing {
    r.(snapshots := r.snapshots + [network], cell := |r.snapshots|)
  }

  function TakeRoute(r: Routing, flow: nat): Routing {
    r.(flows := r.flows[flow := r.cell])
  }

  /** What a flow sees through the snapshot it retains. */
  function RouteOf(r: Routing, flow: nat): Option<NetworkConfig> {
    if flow in r.flows && r.flows[flow] < |r.snapshots| then Some(r.snapshots[r.flows[flow]]) else None
  }

  /** The three live runtimes. */
  datatype Live = Live(mitm: MitmConfig, hooks: HooksConfig, network: NetworkConfig)

  datatype Process = Process(
    startup: Option<Upstream>,
    current: Policies,
    live: Live,
    routing: Routing,
    access: Access,
    txn: Option<Txn>)

  /** One transaction, begun by moving the guard into its task. */
  datatype Attempt = Attempt(client: nat, update: Update, committed: bool)

  /**
   * `log` lists transactions in order and `installed` the files the policy path held, oldest
   * first; after a power loss both describe the history that survived.
   */
  datatype System = System(
    disk: Disk, process: Option<Process>, log: seq<Attempt>, installed: seq<Option<Content>>)

  /** Outcome of one I/O step; `partial` is what a failed write left in the temporary file. */
  datatype Io = Io(ok: bool, nonce: nat, partial: Content)

  datatype Event =
    | Request(client: nat, update: Update)
    | Cancel(client: nat)
    | Acquire(client: nat)
    | Detach(client: nat)
    | Reply(client: nat, ok: bool)
    | Advance(io: Io)
    | Observe(flow: nat)
    | Die
    | LosePower(after: Disk)
    | Boot(startup: Option<Upstream>)

  function LiveOf(startup: Option<Upstream>, p: Policies): Live {
    Live(p.mitm, p.hooks, Resolve(startup, p.network))
  }

  function PublishTo(live: Live, u: Update): Live {
    match u
    case SetNetwork(network) => live.(network := network)
    case SetMitm(mitm) => live.(mitm := mitm)
    case SetHooks(hooks) => live.(hooks := hooks)
  }

  function Committed(log: seq<Attempt>): seq<Update> {
    if log == [] then []
    else Committed(log[..|log| - 1]) + if Last(log).committed then [Last(log).update] else []
  }

  function DropNewestCommit(log: seq<Attempt>): seq<Attempt> {
    if log == [] then []
    else if Last(log).committed then log[..|log| - 1] + [Last(log).(committed := false)]
    else DropNewestCommit(log[..|log| - 1]) + [Last(log)]
  }

  /** Sequential meaning of a list of updates. */
  function ApplyAll(p: Policies, us: seq<Update>): Policies {
    if us == [] then p else Apply(ApplyAll(p, us[..|us| - 1]), Last(us))
  }

  function WithProcess(s: System, p: Process): System {
    s.(process := Some(p))
  }

  /** All that the lock holder can change besides its own progress. */
  datatype Core = Core(
    disk: Disk, log: seq<Attempt>, installed: seq<Option<Content>>, current: Policies, live: Live)

  function CoreOf(s: System, p: Process): Core {
    Core(s.disk, s.log, s.installed, p.current, p.live)
  }

  function WithCore(p: Process, k: Core, txn: Option<Txn>): System {
    System(k.disk, Some(p.(current := k.current, live := k.live, txn := txn)), k.log, k.installed)
  }

  /** The process around a step of its task: a route may be published, and the task may end. */
  function AroundTask(p: Process, t: Txn, ended: bool): Process {
    var publishes := t.pc.Publish? && t.update.SetNetwork?;
    p.(routing := if publishes then PublishRoute(p.routing, t.update.network) else p.routing,
       access := if ended then TaskEnded(p.access, t.client, t.pc.Assign?) else p.access)
  }

  predicate CanAdvance(k: Core, t: Txn) {
    WellFormed(k.disk) && k.log != [] && t.inode <= |k.disk.inodes|
    && (t.pc in {Write, SyncTemp} ==> t.inode < |k.disk.inodes|)
  }

  /** One step of the task that owns the transaction lock; no transaction is left when it lets go. */
  function AdvanceTxn(rules: Rules, k: Core, t: Txn, io: Io): (Core, Option<Txn>)
    requires CanAdvance(k, t)
  {
    match t.pc
    case Validate =>
      if UpdateValid(rules, t.update) then
        (k, Some(t.(candidate := Apply(k.current, t.update), pc := Prepare)))
      else
        (k, None)
    case Prepare =>
      (k, if io.ok then Some(t.(pc := Create)) else None)
    case Create =>
      if io.ok && Temp(io.nonce) !in Visible(k.disk) then
        (k.(disk := CreateNew(k.disk, Temp(io.nonce))),
         Some(t.(temp := io.nonce, inode := |k.disk.inodes|, pc := Write)))
      else
        (k, Some(t.(temp := io.nonce, pc := Cleanup)))
    case Write =>
      if io.ok then
        (k.(disk := WriteFile(k.disk, t.inode, Encode(t.candidate))), Some(t.(pc := SyncTemp)))
      else
        (k.(disk := WriteFile(k.disk, t.inode, io.partial)), Some(t.(pc := Cleanup)))
    case SyncTemp =>
      if io.ok then (k.(disk := SyncFile(k.disk, t.inode)), Some(t.(pc := SyncParent)))
      else (k, Some(t.(pc := Cleanup)))
    case SyncParent =>
      if io.ok then (k.(disk := SyncDirectory(k.disk)), Some(t.(pc := Install)))
      else (k, Some(t.(pc := Cleanup)))
    case Install =>
      if io.ok && Temp(t.temp) in Visible(k.disk) then
        var disk := Rename(k.disk, Temp(t.temp));
        var log := k.log[|k.log| - 1 := Last(k.log).(committed := true)];
        (k.(disk := disk, log := log, installed := k.installed + [PolicyFile(disk)]), Some(t.(pc := Confirm)))
      else
        (k, Some(t.(pc := Cleanup)))
    case Confirm =>
      // A failed sync of the parent is only logged: the rename was the commit point.
      (if io.ok then k.(disk := SyncDirectory(k.disk)) else k, Some(t.(pc := Publish)))
    case Publish =>
      (k.(live := PublishTo(k.live, t.update)), Some(t.(pc := Assign)))
    case Assign =>
      (k.(current := t.candidate), None)
    case Cleanup =>
      (if io.ok then k.(disk := Remove(k.disk, Temp(t.temp))) else k, None)
  }

  /** History after a power loss: the newest installation is either kept or forgotten. */
  function Survivors(s: System, after: Disk): System
    requires after.views != [] && s.installed != []
  {
    if PolicyFile(after) == Last(s.installed) || |s.installed| == 1 then
      System(after, None, s.log, s.installed)
    else
      System(after, None, DropNewestCommit(s.log), s.installed[..|s.installed| - 1])
  }

  ghost predicate Enabled(s: System, e: Event) {
    match e
    case Request(c, _) => s.process.Some? && c !in s.process.value.access.callers && !Owns(s.process.value, c)
    case Cancel(c) => s.process.Some? && c in s.process.value.access.callers
    case Acquire(c) => s.process.Some? && !s.process.value.access.locked && IsQueued(s.process.value.access, c)
    case Detach(c) => s.process.Some? && Holds(s.process.value.access, c)
    case Reply(c, ok) => s.process.Some? && IsAnswered(s.process.value.access, c, ok)
    case Advance(_) =>
      && s.process.Some? && s.process.value.txn.Some?
      && CanAdvance(CoreOf(s, s.process.value), s.process.value.txn.value)
    case Observe(f) => s.process.Some? && f !in s.process.value.routing.flows
    case Die => s.process.Some?
    case LosePower(after) => s.installed != [] && PowerLoss(s.disk, after)
    case Boot(_) => s.process.None? && s.disk.views != []
  }

  predicate IsQueued(a: Access, c: nat) {
    c in a.callers && a.callers[c].Queued?
  }

  predicate IsAnswered(a: Access, c: nat, ok: bool) {
    c in a.callers && a.callers[c].Answered? && a.callers[c].ok == ok
  }

  predicate Owns(p: Process, c: nat) {
    p.txn.Some? && p.txn.value.client == c
  }

  ghost function Step(rules: Rules, s: System, e: Event): System
    requires Enabled(s, e)
  {
    match e
    case Request(c, u) =>
      var p := s.process.value;
      WithProcess(s, p.(access := p.access.(callers := p.access.callers[c := Queued(u)])))
    case Cancel(c) =>
      var p := s.process.value;
      WithProcess(s, p.(access := Dropped(p.access, c)))
    case Acquire(c) =>
      var p := s.process.value;
      WithProcess(s, p.(access := Access(true, p.access.callers[c := Holding(p.access.callers[c].update)])))
    case Detach(c) =>
      var p := s.process.value;
      var u := p.access.callers[c].update;
      WithProcess(s.(log := s.log + [Attempt(c, u, false)]),
                  p.(access := p.access.(callers := p.access.callers[c := Awaiting(|s.log|)]),
                     txn := Some(Txn(c, u, p.current, 0, 0, Validate))))
    case Reply(c, _) =>
      var p := s.process.value;
      WithProcess(s, p.(access := p.access.(callers := p.access.callers - {c})))
    case Advance(io) =>
      var p := s.process.value;
      var (k, t) := AdvanceTxn(rules, CoreOf(s, p), p.txn.value, io);
      WithCore(AroundTask(p, p.txn.value, t.None?), k, t)
    case Observe(f) =>
      var p := s.process.value;
      WithProcess(s, p.(routing := TakeRoute(p.routing, f)))
    case Die => s.(process := None)
    case LosePower(after) => Survivors(s, after)
    case Boot(startup) =>
      var loaded := Load(rules, PolicyFile(s.disk));
      if loaded.Ok? && RouteValid(rules, Resolve(startup, loaded.value.network)) then
        WithProcess(s, Started(startup, loaded.value))
      else
        s
  }

  /** A process that has just started has allocated one snapshot, and its lock is free. */
  function Started(startup: Option<Upstream>, p: Policies): Process {
    Process(startup, p, LiveOf(startup, p), Routing([Resolve(startup, p.network)], 0, map[]),
            Access(false, map[]), None)
  }

  /** A power-on machine with a settled directory and no broker yet. */
  ghost predicate Init(s: System) {
    && WellFormed(s.disk)
    && |s.disk.views| == 1
    && (forall i :: 0 <= i < |s.disk.inodes| ==> s.disk.inodes[i].synced)
    && s.process.None?
    && s.log == []
    && s.installed == [PolicyFile(s.disk)]
  }

  /** `trace` leads from `s` to `t`. */
  ghost predicate Run(rules: Rules, s: System, trace: seq<Event>, t: System)
    decreases |trace|
  {
    if trace == [] then s == t
    else Enabled(s, trace[0]) && Run(rules, Step(rules, s, trace[0]), trace[1..], t)
  }

  // ---- The invariant ----

  predicate Recent(installed: seq<Option<Content>>, file: Option<Content>)
    requires installed != []
  {
    file == Last(installed) || (|installed| >= 2 && file == installed[|installed| - 2])
  }

  /** The visible file is the last installation, and a power loss reaches back at most one more. */
  ghost predicate DiskInv(d: Disk, installed: seq<Option<Content>>) {
    && WellFormed(d)
    && installed != []
    && PolicyFile(d) == Last(installed)
    && forall i :: 0 <= i < |d.views| ==> ViewInv(d, installed, d.views[i])
  }

  /** A directory state shows a recent installation, whose bytes are on stable storage. */
  ghost predicate ViewInv(d: Disk, installed: seq<Option<Content>>, view: Directory)
    requires installed != []
  {
    && Recent(installed, FileIn(d, view))
    && (Policy in view ==> view[Policy] < |d.inodes| && d.inodes[view[Policy]].synced)
  }

  /** Each installed file is what its prefix of the committed updates means. */
  ghost predicate HistoryInv(rules: Rules, log: seq<Attempt>, installed: seq<Option<Content>>) {
    var us := Committed(log);
    && |installed| == |us| + 1
    && Load(rules, installed[0]).Ok?
    && forall i :: 0 <= i <= |us| ==>
         var p := ApplyAll(Load(rules, installed[0]).value, us[..i]);
         Load(rules, installed[i]) == Ok(p) && (i > 0 ==> installed[i] == Some(Encode(p)))
  }

  /** A policy file the broker refuses to load: nothing is ever installed. */
  ghost predicate Refused(rules: Rules, log: seq<Attempt>, installed: seq<Option<Content>>) {
    |installed| == 1 && Load(rules, installed[0]).Err? && Committed(log) == []
  }

  predicate Staged(pc: Pc) {
    pc in {Write, SyncTemp, SyncParent, Install}
  }

  predicate CommittedPc(pc: Pc) {
    pc in {Confirm, Publish, Assign}
  }

  /** The temporary file of a staged transaction is visible, private and as complete as its step says. */
  ghost predicate StagedInv(d: Disk, installed: seq<Option<Content>>, t: Txn) {
    && d.views != [] && installed != []
    && Get(Visible(d), Temp(t.temp)) == Some(t.inode)
    && t.inode < |d.inodes|
    && Private(d, t.inode)
    && (!t.pc.Write? ==> d.inodes[t.inode].content == Encode(t.candidate))
    && (t.pc in {SyncParent, Install} ==> d.inodes[t.inode].synced)
    && (t.pc.Install? ==> Settled(d, installed))
  }

  /** No directory state uses the inode as its policy file. */
  ghost predicate Private(d: Disk, inode: nat) {
    forall i :: 0 <= i < |d.views| ==> Get(d.views[i], Policy) != Some(inode)
  }

  /** Every directory state that a power loss could draw on shows the newest installation. */
  ghost predicate Settled(d: Disk, installed: seq<Option<Content>>)
    requires installed != []
  {
    forall i :: 0 <= i < |d.views| ==> FileIn(d, d.views[i]) == Last(installed)
  }

  ghost predicate TxnInv(rules: Rules, k: Core, startup: Option<Upstream>, t: Txn) {
    && k.log != [] && k.installed != []
    && Last(k.log) == Attempt(t.client, t.update, CommittedPc(t.pc))
    && t.inode <= |k.disk.inodes|
    && (t.pc !in {Validate, Cleanup} ==>
          UpdateValid(rules, t.update) && t.candidate == Apply(k.current, t.update))
    && (Staged(t.pc) ==> StagedInv(k.disk, k.installed, t))
    && (if CommittedPc(t.pc) then Last(k.installed) == Some(Encode(t.candidate))
        else Load(rules, Last(k.installed)) == Ok(k.current))
    && k.live == LiveOf(startup, if t.pc.Assign? then t.candidate else k.current)
  }

  ghost predicate FreeInv(rules: Rules, k: Core, startup: Option<Upstream>) {
    && k.installed != []
    && Load(rules, Last(k.installed)) == Ok(k.current)
    && k.live == LiveOf(startup, k.current)
  }

  ghost predicate CoreInv(rules: Rules, k: Core, startup: Option<Upstream>, txn: Option<Txn>) {
    && DiskInv(k.disk, k.installed)
    && HistoryInv(rules, k.log, k.installed)
    && PoliciesValid(rules, k.current)
    && (if txn.Some? then TxnInv(rules, k, startup, txn.value) else FreeInv(rules, k, startup))
  }

  ghost predicate Inv(rules: Rules, s: System) {
    && DiskInv(s.disk, s.installed)
    && (HistoryInv(rules, s.log, s.installed) || (s.process.None? && Refused(rules, s.log, s.installed)))
    && (s.process.Some? ==>
          var p := s.process.value;
          && CoreInv(rules, CoreOf(s, p), p.startup, p.txn)
          && AccessInv(p.access, p.txn)
          && RepliesInv(p.access, p.txn, s.log)
          && RoutingInv(p.routing, p.live.network))
  }

  /** The lock is taken exactly while one future or the task owns the guard. */
  ghost predicate AccessInv(a: Access, txn: Option<Txn>) {
    && (forall c :: Holds(a, c) ==> a.locked && txn.None?)
    && (forall c, d :: Holds(a, c) && Holds(a, d) ==> c == d)
    && (a.locked ==> txn.Some? || exists c :: Holds(a, c))
    && (txn.Some? ==> a.locked && !IsQueued(a, txn.value.client))
  }

  /** Whoever waits, waits for the running transaction; whoever is answered, is answered by the log. */
  ghost predicate RepliesInv(a: Access, txn: Option<Txn>, log: seq<Attempt>) {
    && (forall c :: IsAwaiting(a, c) ==> txn.Some? && txn.value.client == c && a.callers[c].attempt == |log| - 1)
    && (forall c, ok :: IsAnswered(a, c, ok) ==> Told(log, a.callers[c].attempt, c, ok))
    && (forall c, ok :: IsAnswered(a, c, ok) && txn.Some? ==> a.callers[c].attempt < |log| - 1)
  }

  predicate Told(log: seq<Attempt>, i: nat, c: nat, ok: bool) {
    i < |log| && log[i].client == c && log[i].committed == ok
  }

  /** The shared cell shows the live route, and every retained snapshot exists. */
  ghost predicate RoutingInv(r: Routing, network: NetworkConfig) {
    && r.cell < |r.snapshots| && r.snapshots[r.cell] == network
    && forall f :: f in r.flows ==> r.flows[f] < |r.snapshots|
  }

  // ---- Preservation ----

  lemma InitInv(rules: Rules, s: System)
    requires Init(s)
    ensures Inv(rules, s)
  {
    assert s.disk.views[0] == Visible(s.disk);
  }

  /** A new view that shows the same policy entry, over files that only grew in number. */
  lemma AddViewInv(d: Disk, d': Disk, installed: seq<Option<Content>>)
    requires DiskInv(d, installed)
    requires |d'.views| == |d.views| + 1 && d'.views[..|d.views|] == d.views
    requires d.inodes <= d'.inodes
    requires Get(Visible(d'), Policy) == Get(Visible(d), Policy)
    requires forall n :: n in Visible(d') ==> Visible(d')[n] < |d'.inodes|
    ensures DiskInv(d', installed)
  {
    hide Recent;
    forall i | 0 <= i < |d'.views|
      ensures ViewInv(d', installed, d'.views[i])
      ensures forall n :: n in d'.views[i] ==> d'.views[i][n] < |d'.inodes|
    {
      var view := if i < |d.views| then d.views[i] else Visible(d);
      assert i < |d.views| ==> d'.views[i] == d'.views[..|d.views|][i] == view;
      assert ViewInv(d, installed, view);
      assert Get(d'.views[i], Policy) == Get(view, Policy);
      assert FileIn(d', d'.views[i]) == FileIn(d, view);
    }
    assert ViewInv(d, installed, d.views[|d.views| - 1]);
  }

  /** Changing an inode that no policy entry refers to changes no policy file. */
  lemma PrivateInodeInv(d: Disk, d': Disk, inode: nat, installed: seq<Option<Content>>)
    requires DiskInv(d, installed) && Private(d, inode)
    requires d'.views == d.views && |d'.inodes| == |d.inodes|
    requires forall k :: 0 <= k < |d.inodes| && k != inode ==> d'.inodes[k] == d.inodes[k]
    ensures DiskInv(d', installed)
  {
    hide Recent;
    forall i | 0 <= i < |d'.views|
      ensures ViewInv(d', installed, d'.views[i]) && FileIn(d', d'.views[i]) == FileIn(d, d.views[i])
    {
      assert ViewInv(d, installed, d.views[i]);
      assert Get(d.views[i], Policy) != Some(inode);
    }
    assert FileIn(d', d'.views[|d.views| - 1]) == PolicyFile(d);
  }

  /** Syncing the directory keeps the visible file and forgets every older view. */
  lemma SyncDirectoryInv(d: Disk, installed: seq<Option<Content>>)
    requires DiskInv(d, installed)
    ensures DiskInv(SyncDirectory(d), installed) && Settled(SyncDirectory(d), installed)
    ensures Visible(SyncDirectory(d)) == Visible(d) && SyncDirectory(d).views == [d.views[|d.views| - 1]]
  {
    hide Recent;
    assert ViewInv(d, installed, d.views[|d.views| - 1]);
  }

  /** Renaming a settled directory's complete temporary file adds one installation. */
  lemma RenameInv(d: Disk, installed: seq<Option<Content>>, t: Txn)
    requires DiskInv(d, installed) && t.pc.Install? && StagedInv(d, installed, t)
    ensures var d' := Rename(d, Temp(t.temp));
            PolicyFile(d') == Some(Encode(t.candidate)) && DiskInv(d', installed + [Some(Encode(t.candidate))])
  {
    var d' := Rename(d, Temp(t.temp));
    var installed' := installed + [Some(Encode(t.candidate))];
    assert installed'[|installed'| - 2] == Last(installed);
    forall i | 0 <= i < |d'.views|
      ensures ViewInv(d', installed', d'.views[i])
    {
      if i < |d.views| {
        assert d'.views[i] == d.views[i] && FileIn(d', d'.views[i]) == FileIn(d, d.views[i]);
        assert ViewInv(d, installed, d.views[i]);
      }
    }
  }

  lemma RenameHistory(rules: Rules, log: seq<Attempt>, log': seq<Attempt>, installed: seq<Option<Content>>,
                      u: Update, p: Policies)
    requires HistoryInv(rules, log, installed)
    requires log != [] && Last(log).update == u && !Last(log).committed
    requires log' == log[|log| - 1 := Last(log).(committed := true)]
    requires Load(rules, Last(installed)) == Ok(p) && PoliciesValid(rules, Apply(p, u))
    ensures HistoryInv(rules, log', installed + [Some(Encode(Apply(p, u)))])
  {
    hide Load;
    var us, us' := Committed(log), Committed(log');
    var installed' := installed + [Some(Encode(Apply(p, u)))];
    assert log'[..|log'| - 1] == log[..|log| - 1];
    assert us' == us + [u];
    assert us[..|us|] == us && us'[..|us'|] == us' && us'[..|us|] == us;
    assert installed[|us|] == Last(installed);
    LoadEncoded(rules, Apply(p, u));
    forall i | 0 <= i <= |us'|
      ensures var q := ApplyAll(Load(rules, installed[0]).value, us'[..i]);
              Load(rules, installed'[i]) == Ok(q) && (i > 0 ==> installed'[i] == Some(Encode(q)))
    {
      if i <= |us| {
        assert us'[..i] == us[..i] && installed'[i] == installed[i];
      }
    }
  }

  /** What one step of the lock holder keeps. */
  ghost predicate Kept(rules: Rules, k: Core, startup: Option<Upstream>, t: Txn, io: Io)
    requires CanAdvance(k, t)
  {
    var (k', t') := AdvanceTxn(rules, k, t, io);
    CoreInv(rules, k', startup, t') && (t'.Some? ==> t'.value.client == t.client)
  }

  lemma CreateStep(rules: Rules, k: Core, startup: Option<Upstream>, t: Txn, io: Io)
    requires CoreInv(rules, k, startup, Some(t)) && CanAdvance(k, t) && t.pc.Create?
    ensures Kept(rules, k, startup, t, io)
  {
    hide HistoryInv, Load, PoliciesValid, UpdateValid, Apply, LiveOf, DiskInv, Encode;
    var d := k.disk;
    if io.ok && Temp(io.nonce) !in Visible(d) {
      var d' := CreateNew(d, Temp(io.nonce));
      CreateNewInv(d, k.installed, io.nonce);
      assert StagedInv(d', k.installed, AdvanceTxn(rules, k, t, io).1.value);
    }
  }

  lemma CreateNewInv(d: Disk, installed: seq<Option<Content>>, nonce: nat)
    requires DiskInv(d, installed)
    ensures var d' := CreateNew(d, Temp(nonce));
            DiskInv(d', installed) && Private(d', |d.inodes|) && Get(Visible(d'), Temp(nonce)) == Some(|d.inodes|)
  {
    hide Recent;
    var d' := CreateNew(d, Temp(nonce));
    AddViewInv(d, d', installed);
    forall i | 0 <= i < |d'.views|
      ensures Get(d'.views[i], Policy) != Some(|d.inodes|)
    {
      assert i < |d.views| ==> d'.views[i] == d.views[i];
      assert ViewInv(d, installed, d.views[|d.views| - 1]);
      assert i < |d.views| ==> ViewInv(d, installed, d.views[i]);
    }
  }

  lemma FillStep(rules: Rules, k: Core, startup: Option<Upstream>, t: Txn, io: Io)
    requires CoreInv(rules, k, startup, Some(t)) && CanAdvance(k, t) && t.pc in {Write, SyncTemp}
    ensures Kept(rules, k, startup, t, io)
  {
    hide HistoryInv, Load, PoliciesValid, UpdateValid, Apply, LiveOf, DiskInv, Encode;
    var (k', t') := AdvanceTxn(rules, k, t, io);
    PrivateInodeInv(k.disk, k'.disk, t.inode, k.installed);
    assert StagedInv(k.disk, k.installed, t);
    assert Private(k'.disk, t.inode);
  }

  lemma SyncParentStep(rules: Rules, k: Core, startup: Option<Upstream>, t: Txn, io: Io)
    requires CoreInv(rules, k, startup, Some(t)) && CanAdvance(k, t) && t.pc in {SyncParent, Confirm}
    ensures Kept(rules, k, startup, t, io)
  {
    hide HistoryInv, Load, PoliciesValid, UpdateValid, Apply, LiveOf, DiskInv, Encode, Settled;
    SyncDirectoryInv(k.disk, k.installed);
    if io.ok && t.pc.SyncParent? {
      assert StagedInv(k.disk, k.installed, t);
      assert Private(SyncDirectory(k.disk), t.inode);
    }
  }

  lemma InstallStep(rules: Rules, k: Core, startup: Option<Upstream>, t: Txn, io: Io)
    requires CoreInv(rules, k, startup, Some(t)) && CanAdvance(k, t) && t.pc.Install?
    ensures Kept(rules, k, startup, t, io)
  {
    hide HistoryInv, Load, PoliciesValid, UpdateValid, Apply, LiveOf, DiskInv, Encode, Settled, Private;
    if io.ok {
      RenameInv(k.disk, k.installed, t);
      var (k', t') := AdvanceTxn(rules, k, t, io);
      ApplyValid(rules, k.current, t.update);
      RenameHistory(rules, k.log, k'.log, k.installed, t.update, k.current);
    }
    assert StagedInv(k.disk, k.installed, t);
  }

  lemma ApplyValid(rules: Rules, p: Policies, u: Update)
    requires PoliciesValid(rules, p) && UpdateValid(rules, u)
    ensures PoliciesValid(rules, Apply(p, u))
  {
  }

  lemma CleanupStep(rules: Rules, k: Core, startup: Option<Upstream>, t: Txn, io: Io)
    requires CoreInv(rules, k, startup, Some(t)) && CanAdvance(k, t) && t.pc.Cleanup?
    ensures Kept(rules, k, startup, t, io)
  {
    hide HistoryInv, Load, PoliciesValid, UpdateValid, Apply, LiveOf, DiskInv, Encode;
    AddViewInv(k.disk, Remove(k.disk, Temp(t.temp)), k.installed);
    hide HistoryInv, Load, PoliciesValid, UpdateValid, Apply, LiveOf, DiskInv;
  }

  /** Steps that touch only memory. */
  lemma MemoryStep(rules: Rules, k: Core, startup: Option<Upstream>, t: Txn, io: Io)
    requires CoreInv(rules, k, startup, Some(t)) && CanAdvance(k, t)
    requires t.pc in {Validate, Prepare, Publish, Assign}
    ensures Kept(rules, k, startup, t, io)
  {
    hide HistoryInv, Load, PoliciesValid, Apply, LiveOf, DiskInv, PublishTo, Encode;
    if t.pc in {Publish, Assign} {
      ApplyValid(rules, k.current, t.update);
      LoadEncoded(rules, t.candidate);
      PublishIsLiveOf(startup, k.current, t.update);
    }
    hide HistoryInv, Load, PoliciesValid, UpdateValid, Apply, LiveOf, DiskInv, PublishTo;
  }

  /** Publishing one section is the same as recomputing the live state from the candidate. */
  lemma PublishIsLiveOf(startup: Option<Upstream>, p: Policies, u: Update)
    ensures PublishTo(LiveOf(startup, p), u) == LiveOf(startup, Apply(p, u))
  {
  }

  lemma AdvanceStep(rules: Rules, s: System, io: Io)
    requires Inv(rules, s) && Enabled(s, Advance(io))
    ensures Inv(rules, Step(rules, s, Advance(io)))
  {
    hide HistoryInv, DiskInv, FreeInv, PoliciesValid, StagedInv, Load, LiveOf, UpdateValid, Apply, Encode, RepliesInv;
    var p := s.process.value;
    var k, t := CoreOf(s, p), p.txn.value;
    match t.pc {
      case Create => CreateStep(rules, k, p.startup, t, io);
      case Write => FillStep(rules, k, p.startup, t, io);
      case SyncTemp => FillStep(rules, k, p.startup, t, io);
      case SyncParent => SyncParentStep(rules, k, p.startup, t, io);
      case Confirm => SyncParentStep(rules, k, p.startup, t, io);
      case Install => InstallStep(rules, k, p.startup, t, io);
      case Cleanup => CleanupStep(rules, k, p.startup, t, io);
      case _ => MemoryStep(rules, k, p.startup, t, io);
    }
    var (k', t') := AdvanceTxn(rules, k, t, io);
    var s' := Step(rules, s, Advance(io));
    assert s' == WithCore(AroundTask(p, t, t'.None?), k', t');
    assert CoreOf(s', s'.process.value) == k';
    TaskAccess(p.access, t, t');
    TaskReplies(rules, p, k, t, io);
    TaskRouting(rules, p, k, t, io);
  }

  lemma TaskAccess(a: Access, t: Txn, t': Option<Txn>)
    requires AccessInv(a, Some(t)) && (t'.Some? ==> t'.value.client == t.client)
    ensures AccessInv(if t'.None? then TaskEnded(a, t.client, t.pc.Assign?) else a, t')
  {
    assert forall c :: Holds(TaskEnded(a, t.client, t.pc.Assign?), c) ==> Holds(a, c);
  }

  /** The result left in the handle is success exactly if the transaction's attempt is committed. */
  lemma TaskReplies(rules: Rules, p: Process, k: Core, t: Txn, io: Io)
    requires CanAdvance(k, t) && RepliesInv(p.access, Some(t), k.log) && k.log != []
    requires Last(k.log) == Attempt(t.client, t.update, CommittedPc(t.pc))
    ensures var (k', t') := AdvanceTxn(rules, k, t, io);
            RepliesInv(AroundTask(p, t, t'.None?).access, t', k'.log)
  {
    hide CreateNew, WriteFile, SyncFile, SyncDirectory, Rename, Remove, Encode, Apply, UpdateValid, PublishTo;
    var (k', t') := AdvanceTxn(rules, k, t, io);
    var a, a' := p.access, AroundTask(p, t, t'.None?).access;
    assert |k'.log| == |k.log| && forall i :: 0 <= i < |k.log| - 1 ==> k'.log[i] == k.log[i];
    forall c, ok | IsAnswered(a', c, ok)
      ensures Told(k'.log, a'.callers[c].attempt, c, ok)
    {
      if IsAnswered(a, c, ok) {
        assert Told(k.log, a.callers[c].attempt, c, ok);
      }
    }
  }

  lemma TaskRouting(rules: Rules, p: Process, k: Core, t: Txn, io: Io)
    requires CanAdvance(k, t) && k.live == p.live && RoutingInv(p.routing, p.live.network)
    ensures var (k', t') := AdvanceTxn(rules, k, t, io);
            RoutingInv(AroundTask(p, t, t'.None?).routing, k'.live.network)
  {
    hide CreateNew, WriteFile, SyncFile, SyncDirectory, Rename, Remove, Encode, Apply, UpdateValid;
  }

  lemma CommittedAppend(log: seq<Attempt>, a: Attempt)
    ensures Committed(log + [a]) == Committed(log) + if a.committed then [a.update] else []
  {
    assert (log + [a])[..|log|] == log;
  }

  lemma {:induction false} DropNewestCommitted(log: seq<Attempt>)
    requires Committed(log) != []
    ensures var us := Committed(log);
            Committed(DropNewestCommit(log)) == us[..|us| - 1]
  {
    var front := log[..|log| - 1];
    if Last(log).committed {
      CommittedAppend(front, Last(log).(committed := false));
    } else {
      DropNewestCommitted(front);
      CommittedAppend(DropNewestCommit(front), Last(log));
    }
  }

  /** After a power loss the policy path holds a complete file: the newest installation or the one before. */
  lemma SurvivingFile(d: Disk, installed: seq<Option<Content>>, after: Disk)
    requires DiskInv(d, installed) && PowerLoss(d, after)
    ensures WellFormed(after) && Recent(installed, PolicyFile(after))
    ensures DiskInv(after, if PolicyFile(after) == Last(installed) then installed else installed[..|installed| - 1])
    ensures |d.views| == 1 || Settled(d, installed) ==> PolicyFile(after) == Last(installed)
  {
    forall n | n in after.views[0]
      ensures after.views[0][n] < |after.inodes|
    {
      var i :| 0 <= i < |d.views| && Get(after.views[0], n) == Get(d.views[i], n);
    }
    var i :| 0 <= i < |d.views| && Get(after.views[0], Policy) == Get(d.views[i], Policy);
    assert ViewInv(d, installed, d.views[i]);
    assert FileIn(after, after.views[0]) == FileIn(d, d.views[i]);
    assert after.views[0] == Visible(after);
  }

  lemma SurvivingHistory(rules: Rules, log: seq<Attempt>, installed: seq<Option<Content>>)
    requires HistoryInv(rules, log, installed) && |installed| > 1
    ensures HistoryInv(rules, DropNewestCommit(log), installed[..|installed| - 1])
  {
    hide Load;
    var us, us' := Committed(log), Committed(DropNewestCommit(log));
    DropNewestCommitted(log);
    assert forall i :: 0 <= i <= |us'| ==> us'[..i] == us[..i];
  }

  lemma PowerStep(rules: Rules, s: System, after: Disk)
    requires Inv(rules, s) && Enabled(s, LosePower(after))
    ensures Inv(rules, Step(rules, s, LosePower(after)))
  {
    hide HistoryInv, DiskInv, Load;
    SurvivingFile(s.disk, s.installed, after);
    if HistoryInv(rules, s.log, s.installed) && |s.installed| > 1 {
      SurvivingHistory(rules, s.log, s.installed);
    }
    hide HistoryInv, DiskInv;
  }

  /** Moving the guard into the task begins a transaction. */
  lemma DetachStep(rules: Rules, s: System, client: nat)
    requires Inv(rules, s) && Enabled(s, Detach(client))
    ensures Inv(rules, Step(rules, s, Detach(client)))
  {
    hide PoliciesValid, Load, LiveOf, UpdateValid, Apply, StagedInv, DiskInv, ApplyAll;
    hide RoutingInv, AccessInv, RepliesInv;
    var p := s.process.value;
    DetachAccess(p.access, p.txn, client, p.current, s.log);
    var u := p.access.callers[client].update;
    var a := Attempt(client, u, false);
    CommittedAppend(s.log, a);
    assert Committed(s.log + [a]) == Committed(s.log);
    assert HistoryInv(rules, s.log, s.installed);
    assert HistoryInv(rules, s.log + [a], s.installed);
    var s' := Step(rules, s, Detach(client));
    var t := Txn(client, u, p.current, 0, 0, Validate);
    assert FreeInv(rules, CoreOf(s, p), p.startup);
    assert CoreOf(s', s'.process.value) == CoreOf(s, p).(log := s.log + [a]);
    assert Last(s.log + [a]) == a;
    assert TxnInv(rules, CoreOf(s, p).(log := s.log + [a]), p.startup, t);
  }

  lemma DetachAccess(a: Access, txn: Option<Txn>, c: nat, current: Policies, log: seq<Attempt>)
    requires AccessInv(a, txn) && RepliesInv(a, txn, log) && Holds(a, c)
    ensures txn.None?
    ensures var t := Txn(c, a.callers[c].update, current, 0, 0, Validate);
            var b := a.(callers := a.callers[c := Awaiting(|log|)]);
            AccessInv(b, Some(t)) && RepliesInv(b, Some(t), log + [Attempt(c, t.update, false)])
  {
    var b := a.(callers := a.callers[c := Awaiting(|log|)]);
    assert forall d :: Holds(b, d) ==> Holds(a, d) && d != c;
    assert forall d, ok :: IsAnswered(b, d, ok) ==> IsAnswered(a, d, ok) && Told(log, a.callers[d].attempt, d, ok);
    assert forall d :: IsAwaiting(b, d) ==> d == c || IsAwaiting(a, d);
  }

  /** Futures come, wait, take the guard and go. */
  lemma CallerStep(rules: Rules, s: System, e: Event)
    requires s.process.Some? && Enabled(s, e) && (e.Request? || e.Cancel? || e.Acquire? || e.Reply?)
    requires AccessInv(s.process.value.access, s.process.value.txn)
    requires RepliesInv(s.process.value.access, s.process.value.txn, s.log)
    ensures var s' := Step(rules, s, e);
            && s'.process.Some? && AccessInv(s'.process.value.access, s'.process.value.txn)
            && RepliesInv(s'.process.value.access, s'.process.value.txn, s'.log)
            && s' == s.(process := Some(s.process.value.(access := s'.process.value.access)))
  {
    var a, a' := s.process.value.access, Step(rules, s, e).process.value.access;
    assert forall d :: d != e.client ==> Holds(a', d) == Holds(a, d);
    assert forall d :: IsAwaiting(a', d) ==> IsAwaiting(a, d) && a'.callers[d] == a.callers[d];
    assert forall d, ok :: IsAnswered(a', d, ok) ==> IsAnswered(a, d, ok) && a'.callers[d] == a.callers[d];
    if e.Acquire? {
      assert Holds(a', e.client);
    } else {
      assert !Holds(a', e.client);
      assert e.Request? || e.Reply? ==> !Holds(a, e.client);
    }
  }

  lemma QueueStep(rules: Rules, s: System, e: Event)
    requires Inv(rules, s) && Enabled(s, e)
    requires e.Request? || e.Cancel? || e.Acquire? || e.Reply? || e.Observe? || e.Die?
    ensures Inv(rules, Step(rules, s, e))
  {
    hide HistoryInv, Load, PoliciesValid, UpdateValid, Apply, LiveOf, DiskInv, Encode, AccessInv, RepliesInv, Dropped;
    if !e.Die? {
      var s' := Step(rules, s, e);
      if !e.Observe? {
        CallerStep(rules, s, e);
      }
      assert CoreOf(s', s'.process.value) == CoreOf(s, s.process.value);
    }
  }

  lemma StartedInv(startup: Option<Upstream>, p: Policies)
    ensures var q := Started(startup, p); AccessInv(q.access, q.txn) && RoutingInv(q.routing, q.live.network)
    ensures forall log :: RepliesInv(Started(startup, p).access, None, log)
  {
    assert forall c :: !Holds(Access(false, map[]), c);
  }

  lemma BootStep(rules: Rules, s: System, startup: Option<Upstream>)
    requires RulesSane(rules) && Inv(rules, s) && Enabled(s, Boot(startup))
    ensures Inv(rules, Step(rules, s, Boot(startup)))
  {
    hide HistoryInv, PoliciesValid, LiveOf, AccessInv, RoutingInv, RepliesInv;
    assert PolicyFile(s.disk) == Last(s.installed);
    var loaded := Load(rules, PolicyFile(s.disk));
    if loaded.Ok? {
      StartedInv(startup, loaded.value);
    }
    assert loaded.Ok? ==> PoliciesValid(rules, loaded.value);
    hide HistoryInv, DiskInv, PoliciesValid, Load, LiveOf;
  }

  lemma StepInv(rules: Rules, s: System, e: Event)
    requires RulesSane(rules) && Inv(rules, s) && Enabled(s, e)
    ensures Inv(rules, Step(rules, s, e))
  {
    hide Inv, Enabled, Step;
    match e
    case Advance(io) => AdvanceStep(rules, s, io);
    case LosePower(after) => PowerStep(rules, s, after);
    case Detach(c) => DetachStep(rules, s, c);
    case Boot(startup) => BootStep(rules, s, startup);
    case _ => QueueStep(rules, s, e);
  }

  lemma {:induction false} RunInv(rules: Rules, s: System, trace: seq<Event>, t: System)
    requires RulesSane(rules) && Inv(rules, s) && Run(rules, s, trace, t)
    ensures Inv(rules, t)
    decreases |trace|
  {
    hide Inv, Enabled, Step;
    if trace != [] {
      StepInv(rules, s, trace[0]);
      RunInv(rules, Step(rules, s, trace[0]), trace[1..], t);
    }
  }
}
