/** What every run of the policy transaction guarantees. */
module PolicyTheorems {
  import opened Common
  import opened PolicyDocument
  import opened PolicyDisk
  import opened PolicyDurability
  import opened PolicyMachine

  /** `s` is reached by `trace` from a machine that starts without a broker. */
  ghost predicate Reaches(rules: Rules, s0: System, trace: seq<Event>, s: System) {
    RulesSane(rules) && Init(s0) && Run(rules, s0, trace, s)
  }

  lemma ReachedInv(rules: Rules, s0: System, trace: seq<Event>, s: System)
    requires Reaches(rules, s0, trace, s)
    ensures Inv(rules, s)
  {
    hide Inv, Init, Run;
    InitInv(rules, s0);
    RunInv(rules, s0, trace, s);
  }

  /** State meant by the first `n` committed updates on top of the file found at first start. */
  ghost function Meaning(rules: Rules, s: System, n: nat): Policies
    requires s.installed != [] && Load(rules, s.installed[0]).Ok? && n <= |Committed(s.log)|
  {
    ApplyAll(Load(rules, s.installed[0]).value, Committed(s.log)[..n])
  }

  // ---- Power loss ----

  predicate AboutToRename(s: System) {
    s.process.Some? && s.process.value.txn.Some? && s.process.value.txn.value.pc.Install?
  }

  /**
   * Exactly when the newest commit can be lost: a power loss now may bring back an older policy file if
   * and only if the newest rename of the run changed the file and no directory sync has succeeded since
   * (nor was power lost in between). In particular it cannot while a later transaction is about to rename.
   */
  lemma NewestCommitCanBeLost(rules: Rules, s0: System, trace: seq<Event>, s: System)
    requires Reaches(rules, s0, trace, s)
    ensures s.installed != [] && (CanBeLost(s.disk, s.installed) <==> InDoubt(rules, s0, trace, false))
    ensures AboutToRename(s) ==> !InDoubt(rules, s0, trace, false)
  {
    hide Run, InDoubt, CanBeLost;
    InitInv(rules, s0);
    ReachedInv(rules, s0, trace, s);
    InitiallySettled(s0);
    InDoubtIsUnsettled(rules, s0, trace, s, false);
    LostExactlyIfUnsettled(s.disk, s.installed);
  }

  lemma InitiallySettled(s0: System)
    requires Init(s0)
    ensures s0.installed != [] && Settled(s0.disk, s0.installed)
  {
    assert s0.disk.views[0] == Visible(s0.disk);
  }

  lemma SettledKeepsNewest(d: Disk, installed: seq<Option<Content>>, after: Disk)
    requires installed != [] && PowerLoss(d, after) && !CanBeLost(d, installed)
    ensures after.views != [] && PolicyFile(after) == Last(installed)
  {
    OneView(d, after);
  }

  /**
   * Power lost at any step of any run leaves a policy file that loads as the meaning of all
   * committed updates, or of all but the newest; it is a complete written snapshot except that no
   * file may be there while at most the very first commit is in doubt. All committed updates survive
   * unless the run leaves the newest rename in doubt.
   */
  lemma PowerLossIsRecent(rules: Rules, s0: System, trace: seq<Event>, s: System, after: Disk)
    returns (kept: nat)
    requires Reaches(rules, s0, trace, s) && PowerLoss(s.disk, after)
    ensures WellFormed(after) && s.installed != []
    ensures kept <= |Committed(s.log)| <= kept + 1
    ensures kept == 0 ==> PolicyFile(after) == s.installed[0]
    ensures kept > 0 ==> Load(rules, s.installed[0]).Ok? && PolicyFile(after) == Some(Encode(Meaning(rules, s, kept)))
    ensures Load(rules, s.installed[0]).Ok? ==> Load(rules, PolicyFile(after)) == Ok(Meaning(rules, s, kept))
    ensures PolicyFile(after).None? ==> |Committed(s.log)| <= 1
    ensures !InDoubt(rules, s0, trace, false) ==> kept == |Committed(s.log)|
  {
    hide InDoubt, CanBeLost, Reaches;
    ReachedInv(rules, s0, trace, s);
    NewestCommitCanBeLost(rules, s0, trace, s);
    SurvivingFile(s.disk, s.installed, after);
    if !CanBeLost(s.disk, s.installed) {
      SettledKeepsNewest(s.disk, s.installed, after);
    }
    if HistoryInv(rules, s.log, s.installed) {
      var newest := |Committed(s.log)|;
      kept := if PolicyFile(after) == Last(s.installed) then newest else newest - 1;
      HistoryAt(rules, s, kept);
      assert PolicyFile(after) == s.installed[kept];
    } else {
      kept := 0;
    }
  }

  lemma HistoryAt(rules: Rules, s: System, n: nat)
    requires HistoryInv(rules, s.log, s.installed) && n <= |Committed(s.log)|
    ensures |s.installed| == |Committed(s.log)| + 1
    ensures Load(rules, s.installed[n]) == Ok(Meaning(rules, s, n))
    ensures n > 0 ==> s.installed[n] == Some(Encode(Meaning(rules, s, n)))
  {
    hide Load, ApplyAll, Encode;
  }

  lemma {:induction false} InstallationsGrow(rules: Rules, s: System, trace: seq<Event>, t: System)
    requires Run(rules, s, trace, t) && NoPowerLoss(trace)
    ensures |s.installed| <= |t.installed|
    decreases |trace|
  {
    hide Enabled, Load, LiveOf, CanAdvance;
    if trace != [] {
      assert trace[0] in trace && forall e :: e in trace[1..] ==> e in trace;
      InstallationsGrow(rules, Step(rules, s, trace[0]), trace[1..], t);
    }
  }

  lemma {:induction false} NoRenameNoDoubt(rules: Rules, s: System, trace: seq<Event>, t: System)
    requires Run(rules, s, trace, t) && NoPowerLoss(trace) && |t.installed| == |s.installed|
    ensures !InDoubt(rules, s, trace, false)
    decreases |trace|
  {
    hide Enabled, Step;
    if trace != [] {
      assert trace[0] in trace && forall e :: e in trace[1..] ==> e in trace;
      var n := Step(rules, s, trace[0]);
      InstallationsGrow(rules, n, trace[1..], t);
      assert Run(rules, s, trace[..1], n) by {
        assert trace[..1] == [trace[0]] && trace[..1][1..] == [];
      }
      InstallationsGrow(rules, s, trace[..1], n);
      NoRenameNoDoubt(rules, n, trace[1..], t);
    }
  }

  /**
   * A successful directory sync settles the newest installation for good: whatever happens afterwards,
   * failed transactions and their clean-up included, until the next rename no power loss can undo it.
   */
  lemma SyncSettles(rules: Rules, s: System, io: Io, trace: seq<Event>, t: System)
    requires RulesSane(rules) && Inv(rules, s) && Enabled(s, Advance(io)) && SyncsDirectory(s, Advance(io))
    requires Run(rules, Step(rules, s, Advance(io)), trace, t) && NoPowerLoss(trace) && t.installed == s.installed
    ensures t.installed != [] && !CanBeLost(t.disk, t.installed)
  {
    hide Run, InDoubt, CanBeLost, Settled;
    var n := Step(rules, s, Advance(io));
    SyncedState(rules, s, io);
    NoRenameNoDoubt(rules, n, trace, t);
    StepInv(rules, s, Advance(io));
    InDoubtIsUnsettled(rules, n, trace, t, false);
    RunInv(rules, n, trace, t);
    LostExactlyIfUnsettled(t.disk, t.installed);
  }

  lemma SyncedState(rules: Rules, s: System, io: Io)
    requires Inv(rules, s) && Enabled(s, Advance(io)) && SyncsDirectory(s, Advance(io))
    ensures var n := Step(rules, s, Advance(io));
            n.installed == s.installed && n.installed != [] && Settled(n.disk, n.installed)
  {
    hide HistoryInv, CoreInv, AccessInv, RoutingInv, RepliesInv, CanAdvance;
    SyncDirectoryInv(s.disk, s.installed);
  }

  // ---- Agreement of memory, live runtimes and disk ----

  lemma FreeMeaning(rules: Rules, s: System)
    requires Inv(rules, s) && s.process.Some? && s.process.value.txn.None?
    ensures WellFormed(s.disk) && s.installed != [] && Load(rules, s.installed[0]).Ok?
    ensures PolicyFile(s.disk) == Last(s.installed)
    ensures var p := s.process.value;
            && Load(rules, PolicyFile(s.disk)) == Ok(p.current)
            && p.current == ApplyAll(Load(rules, s.installed[0]).value, Committed(s.log))
            && p.live == LiveOf(p.startup, p.current)
            && (Committed(s.log) != [] ==> PolicyFile(s.disk) == Some(Encode(p.current)))
  {
    HistoryAt(rules, s, |Committed(s.log)|);
    hide HistoryInv, Load, ApplyAll;
    assert Committed(s.log)[..|Committed(s.log)|] == Committed(s.log);
  }

  /**
   * Whenever the lock is free, the committed snapshot, the three live runtimes and the decoded
   * policy file agree, and they are the meaning of the committed updates.
   */
  lemma AgreementWhenFree(rules: Rules, s0: System, trace: seq<Event>, s: System)
    requires Reaches(rules, s0, trace, s) && s.process.Some? && s.process.value.txn.None?
    ensures WellFormed(s.disk) && s.installed != [] && Load(rules, s.installed[0]).Ok?
    ensures var p := s.process.value;
            && Load(rules, PolicyFile(s.disk)) == Ok(p.current)
            && p.current == ApplyAll(Load(rules, s.installed[0]).value, Committed(s.log))
            && p.live == LiveOf(p.startup, p.current)
            && (Committed(s.log) != [] ==> PolicyFile(s.disk) == Some(Encode(p.current)))
  {
    ReachedInv(rules, s0, trace, s);
    FreeMeaning(rules, s);
  }

  /**
   * Inside a transaction the file is still the committed snapshot or already the candidate, which
   * differs from it in one section only; the live runtimes never lead the file.
   */
  lemma FileLeadsByOne(rules: Rules, s0: System, trace: seq<Event>, s: System)
    requires Reaches(rules, s0, trace, s) && s.process.Some? && s.process.value.txn.Some?
    ensures var p := s.process.value; var t := p.txn.value;
            var next := Apply(p.current, t.update);
            && WellFormed(s.disk)
            && Load(rules, PolicyFile(s.disk)) == Ok(if CommittedPc(t.pc) then next else p.current)
            && p.live == LiveOf(p.startup, if t.pc.Assign? then next else p.current)
            && (t.pc.Assign? ==> CommittedPc(t.pc))
  {
    ReachedInv(rules, s0, trace, s);
    hide HistoryInv, Reaches;
    var p := s.process.value;
    assert TxnInv(rules, CoreOf(s, p), p.startup, p.txn.value);
    if CommittedPc(p.txn.value.pc) {
      ApplyValid(rules, p.current, p.txn.value.update);
      LoadEncoded(rules, p.txn.value.candidate);
    }
  }

  // ---- Linearizability ----

  lemma {:induction false} ApplyAllConcat(p: Policies, a: seq<Update>, b: seq<Update>)
    ensures ApplyAll(p, a + b) == ApplyAll(ApplyAll(p, a), b)
  {
    if b == [] {
      assert a + b == a;
    } else {
      var front := b[..|b| - 1];
      assert (a + b)[..|a + b| - 1] == a + front;
      ApplyAllConcat(p, a, front);
    }
  }

  predicate NoPowerLoss(trace: seq<Event>) {
    forall e :: e in trace ==> !e.LosePower?
  }

  /** One step either keeps the history or, without a power loss, extends it. */
  lemma StepCommits(rules: Rules, s: System, e: Event)
    requires Enabled(s, e) && !e.LosePower? && s.installed != []
    requires AboutToRename(s) ==> s.log != [] && !Last(s.log).committed
    ensures var s' := Step(rules, s, e);
            && s'.installed != [] && s'.installed[0] == s.installed[0]
            && Committed(s.log) <= Committed(s'.log)
            && (s'.installed == s.installed || |Committed(s'.log)| > |Committed(s.log)|)
  {
    var s' := Step(rules, s, e);
    if e.Detach? {
      CommittedAppend(s.log, Attempt(e.client, s.process.value.access.callers[e.client].update, false));
    } else if s'.log != s.log {
      assert s'.log[..|s'.log| - 1] == s.log[..|s.log| - 1];
    }
  }

  lemma UncommittedHolder(rules: Rules, s: System)
    requires Inv(rules, s)
    ensures s.installed != []
    ensures AboutToRename(s) ==> s.log != [] && !Last(s.log).committed
  {
  }

  /** Commits are only ever appended, except by a power loss. */
  lemma {:induction false} CommitsGrow(rules: Rules, s: System, trace: seq<Event>, t: System)
    requires RulesSane(rules) && Inv(rules, s) && Run(rules, s, trace, t) && NoPowerLoss(trace)
    ensures t.installed != [] && s.installed != [] && t.installed[0] == s.installed[0]
    ensures Committed(s.log) <= Committed(t.log)
    ensures t.installed == s.installed || |Committed(t.log)| > |Committed(s.log)|
    decreases |trace|
  {
    if trace != [] {
      var e := trace[0];
      assert e in trace;
      UncommittedHolder(rules, s);
      hide Inv, Step, Enabled;
      StepCommits(rules, s, e);
      StepInv(rules, s, e);
      assert forall f :: f in trace[1..] ==> f in trace;
      CommitsGrow(rules, Step(rules, s, e), trace[1..], t);
    }
  }

  /**
   * Between any two moments at which the lock is free, across concurrent callers, failures, crashes
   * and restarts of the broker, the state moves by exactly the updates committed in between, in
   * lock order; attempts that failed or were never acquired leave no mark anywhere.
   */
  lemma Linearizable(rules: Rules, s0: System, before: seq<Event>, s: System, trace: seq<Event>, t: System)
    returns (us: seq<Update>)
    requires Reaches(rules, s0, before, s) && Run(rules, s, trace, t) && NoPowerLoss(trace)
    requires s.process.Some? && s.process.value.txn.None?
    requires t.process.Some? && t.process.value.txn.None?
    ensures Committed(t.log) == Committed(s.log) + us
    ensures t.process.value.current == ApplyAll(s.process.value.current, us)
    ensures t.process.value.live == LiveOf(t.process.value.startup, t.process.value.current)
    ensures t.disk.views != [] && s.disk.views != []
    ensures us == [] ==> PolicyFile(t.disk) == PolicyFile(s.disk)
    ensures us != [] ==> PolicyFile(t.disk) == Some(Encode(t.process.value.current))
  {
    hide Inv, Run, Load, ApplyAll, Committed, Encode, LiveOf, Init;
    ReachedInv(rules, s0, before, s);
    RunInv(rules, s, trace, t);
    CommitsGrow(rules, s, trace, t);
    FreeMeaning(rules, s);
    FreeMeaning(rules, t);
    var a, b := Committed(s.log), Committed(t.log);
    us := b[|a|..];
    assert b == a + us;
    ApplyAllConcat(Load(rules, s.installed[0]).value, a, us);
  }

  // ---- Sections ----

  /** Newest update of each section, or what was there before. */
  function NewestMitm(us: seq<Update>, was: MitmConfig): MitmConfig {
    if us == [] then was else if Last(us).SetMitm? then Last(us).mitm else NewestMitm(us[..|us| - 1], was)
  }

  function NewestHooks(us: seq<Update>, was: HooksConfig): HooksConfig {
    if us == [] then was else if Last(us).SetHooks? then Last(us).hooks else NewestHooks(us[..|us| - 1], was)
  }

  function NewestRoute(us: seq<Update>, was: Option<NetworkConfig>): Option<NetworkConfig> {
    if us == [] then was else if Last(us).SetNetwork? then Some(Last(us).network) else NewestRoute(us[..|us| - 1], was)
  }

  /** No update of one section is lost to an update of another. */
  lemma {:induction false} SectionsIndependent(p: Policies, us: seq<Update>)
    ensures ApplyAll(p, us) == Policies(NewestMitm(us, p.mitm), NewestHooks(us, p.hooks), NewestRoute(us, p.network))
  {
    if us != [] {
      SectionsIndependent(p, us[..|us| - 1]);
    }
  }

  /**
   * Route resolution over any run of updates, crashes and restarts with changing startup files: new
   * connections use the last committed override (an explicit direct route included), or else the
   * upstream of the startup file of this very process. MITM and hooks commits never matter.
   */
  lemma RouteResolution(rules: Rules, s0: System, trace: seq<Event>, s: System)
    requires Reaches(rules, s0, trace, s) && s.process.Some? && s.process.value.txn.None?
    ensures s.installed != [] && Load(rules, s.installed[0]).Ok?
    ensures var base := Load(rules, s.installed[0]).value;
            var override := NewestRoute(Committed(s.log), base.network);
            && s.process.value.live.network ==
               (if override.Some? then override.value else NetworkConfig(s.process.value.startup))
            && s.process.value.live.mitm == NewestMitm(Committed(s.log), base.mitm)
            && s.process.value.live.hooks == NewestHooks(Committed(s.log), base.hooks)
  {
    AgreementWhenFree(rules, s0, trace, s);
    SectionsIndependent(Load(rules, s.installed[0]).value, Committed(s.log));
  }

  /**
   * A connection keeps the route it took for as long as its process lives: publishing allocates a new
   * snapshot and moves the shared cell, and never reaches a snapshot that somebody retains.
   */
  lemma {:induction false} FlowsKeepTheirRoute(rules: Rules, s: System, trace: seq<Event>, t: System, flow: nat)
    requires RulesSane(rules) && Inv(rules, s) && Run(rules, s, trace, t)
    requires forall e :: e in trace ==> !e.Die? && !e.LosePower?
    requires s.process.Some? && flow in s.process.value.routing.flows
    ensures t.process.Some? && RouteOf(s.process.value.routing, flow).Some?
    ensures RouteOf(t.process.value.routing, flow) == RouteOf(s.process.value.routing, flow)
    decreases |trace|
  {
    FlowsRetain(rules, s, flow);
    hide Inv, Step, Enabled, RouteOf;
    if trace != [] {
      assert trace[0] in trace && forall e :: e in trace[1..] ==> e in trace;
      RouteStep(rules, s, trace[0], flow);
      StepInv(rules, s, trace[0]);
      FlowsKeepTheirRoute(rules, Step(rules, s, trace[0]), trace[1..], t, flow);
    }
  }

  lemma FlowsRetain(rules: Rules, s: System, flow: nat)
    requires Inv(rules, s) && s.process.Some? && flow in s.process.value.routing.flows
    ensures RouteOf(s.process.value.routing, flow).Some?
  {
    hide DiskInv, HistoryInv, CoreInv, AccessInv;
  }

  lemma RouteStep(rules: Rules, s: System, e: Event, flow: nat)
    requires Enabled(s, e) && !e.Die? && !e.LosePower?
    requires s.process.Some? && RouteOf(s.process.value.routing, flow).Some?
    ensures Step(rules, s, e).process.Some?
    ensures flow in Step(rules, s, e).process.value.routing.flows
    ensures RouteOf(Step(rules, s, e).process.value.routing, flow) == RouteOf(s.process.value.routing, flow)
  {
    hide AdvanceTxn, CanAdvance, Dropped;
  }

  /** A new connection takes the route that is live at that moment. */
  lemma NewFlowsTakeTheLiveRoute(rules: Rules, s0: System, trace: seq<Event>, s: System, flow: nat)
    requires Reaches(rules, s0, trace, s) && Enabled(s, Observe(flow))
    ensures var n := Step(rules, s, Observe(flow));
            n.process.Some? && RouteOf(n.process.value.routing, flow) == Some(s.process.value.live.network)
  {
    ReachedInv(rules, s0, trace, s);
    hide DiskInv, HistoryInv, CoreInv, AccessInv, Reaches;
  }

  // ---- Replies ----

  /** A caller is told success exactly if its own transaction is in the log as committed. */
  lemma RepliesTellTheLog(rules: Rules, s0: System, trace: seq<Event>, s: System, c: nat, ok: bool)
    requires Reaches(rules, s0, trace, s) && Enabled(s, Reply(c, ok))
    ensures var i := s.process.value.access.callers[c].attempt;
            i < |s.log| && s.log[i].client == c && s.log[i].committed == ok
  {
    ReachedInv(rules, s0, trace, s);
    hide DiskInv, HistoryInv, CoreInv, AccessInv, RoutingInv, Reaches;
    assert Told(s.log, s.process.value.access.callers[c].attempt, c, ok);
  }

  // ---- The lock and its owners ----

  /**
   * The lock is taken exactly while it has an owner, and then it has one: the request future that
   * acquired it, or the task that future moved the guard into.
   */
  lemma LockHasOneOwner(rules: Rules, s0: System, trace: seq<Event>, s: System)
    requires Reaches(rules, s0, trace, s) && s.process.Some?
    ensures var p := s.process.value;
            && (p.access.locked <==> p.txn.Some? || exists c :: Holds(p.access, c))
            && (forall c :: Holds(p.access, c) ==> p.txn.None?)
            && (forall c, d :: Holds(p.access, c) && Holds(p.access, d) ==> c == d)
  {
    ReachedInv(rules, s0, trace, s);
    hide DiskInv, HistoryInv, CoreInv, RoutingInv, Reaches;
  }

  /**
   * The cancellation boundary: dropping a request gives the lock back if and only if the request
   * acquired it and has not yet moved it into its task. Nothing but the request itself and that flag
   * changes; in particular a task that has the guard goes on.
   */
  lemma CancellingReturnsTheGuard(rules: Rules, s0: System, trace: seq<Event>, s: System, c: nat)
    requires Reaches(rules, s0, trace, s) && Enabled(s, Cancel(c))
    ensures var n := Step(rules, s, Cancel(c));
            && n.process.Some?
            && var p, q := s.process.value, n.process.value;
            && n == s.(process := Some(p.(access := q.access))) && q.access.callers == p.access.callers - {c}
            && (p.access.locked && !q.access.locked <==> Holds(p.access, c))
            && (p.txn.Some? ==> p.access.locked && q.access.locked)
  {
    ReachedInv(rules, s0, trace, s);
    hide DiskInv, HistoryInv, CoreInv, RoutingInv, Reaches;
  }

  // ---- Lock order ----

  function Clients(log: seq<Attempt>): seq<nat> {
    seq(|log|, i requires 0 <= i < |log| => log[i].client)
  }

  /** Acquisitions in order, without those given back by a cancellation or lost in a crash before the move. */
  function LockOrder(trace: seq<Event>, holder: Option<nat>): seq<nat> {
    if trace == [] then []
    else
      var e, rest := trace[0], trace[1..];
      if e.Acquire? then LockOrder(rest, Some(e.client))
      else if e.Detach? then (if holder.Some? then [holder.value] else []) + LockOrder(rest, None)
      else LockOrder(rest, HolderAfter(holder, e))
  }

  function HolderAfter(holder: Option<nat>, e: Event): Option<nat> {
    match e
    case Acquire(c) => Some(c)
    case Detach(_) => None
    case Cancel(c) => if holder == Some(c) then None else holder
    case Die => None
    case LosePower(_) => None
    case _ => holder
  }

  /** `holder` is the request future that owns the guard, if one does. */
  ghost predicate HeldBy(s: System, holder: Option<nat>) {
    if s.process.None? then holder.None?
    else forall c: nat :: Holds(s.process.value.access, c) <==> holder == Some(c)
  }

  lemma HolderStep(rules: Rules, s: System, e: Event, holder: Option<nat>)
    requires Inv(rules, s) && Enabled(s, e) && HeldBy(s, holder)
    ensures HeldBy(Step(rules, s, e), HolderAfter(holder, e))
    ensures e.Detach? ==> holder == Some(e.client)
  {
    hide DiskInv, HistoryInv, CoreInv, RoutingInv, AdvanceTxn, CanAdvance;
    if s.process.Some? && Step(rules, s, e).process.Some? {
      var a, a' := s.process.value.access, Step(rules, s, e).process.value.access;
      if e.Request? || e.Cancel? || e.Acquire? || e.Detach? || e.Reply? {
        assert forall d :: d != e.client ==> Holds(a', d) == Holds(a, d);
        assert Holds(a', e.client) <==> e.Acquire?;
      } else {
        assert forall d :: Holds(a', d) == Holds(a, d);
      }
    } else if Step(rules, s, e).process.Some? {
      assert forall d :: !Holds(Access(false, map[]), d);
    }
  }

  lemma {:induction false} DropKeepsClients(log: seq<Attempt>)
    ensures Clients(DropNewestCommit(log)) == Clients(log)
  {
    if log != [] && !Last(log).committed {
      DropKeepsClients(log[..|log| - 1]);
      assert Clients(log) == Clients(log[..|log| - 1]) + [Last(log).client];
      assert Clients(DropNewestCommit(log)) == Clients(DropNewestCommit(log[..|log| - 1])) + [Last(log).client];
    }
  }

  lemma LogStep(rules: Rules, s: System, e: Event)
    requires Enabled(s, e)
    ensures Clients(Step(rules, s, e).log) == Clients(s.log) + if e.Detach? then [e.client] else []
  {
    hide Load, LiveOf, PoliciesValid, PowerLoss;
    DropKeepsClients(s.log);
    assert Clients(s.log) + [] == Clients(s.log);
  }

  /** The log from which commits are read lists the transactions in the order of their lock acquisitions. */
  lemma {:induction false} LogIsLockOrder(rules: Rules, s: System, trace: seq<Event>, t: System, holder: Option<nat>)
    requires RulesSane(rules) && Inv(rules, s) && Run(rules, s, trace, t) && HeldBy(s, holder)
    ensures Clients(t.log) == Clients(s.log) + LockOrder(trace, holder)
    decreases |trace|
  {
    hide Inv, Enabled, Step, Clients, HeldBy;
    if trace != [] {
      var e := trace[0];
      LogStep(rules, s, e);
      HolderStep(rules, s, e, holder);
      StepInv(rules, s, e);
      LogIsLockOrder(rules, Step(rules, s, e), trace[1..], t, HolderAfter(holder, e));
    }
  }

  // ---- Cancellation ----

  /** A client's own doings: making the request, being queued, taking the guard, giving up, getting the reply. */
  predicate Concerns(e: Event, c: nat) {
    (e.Request? || e.Cancel? || e.Acquire? || e.Detach? || e.Reply?) && e.client == c
  }

  /** The run without client `c`. */
  function Without(trace: seq<Event>, c: nat): seq<Event> {
    if trace == [] then []
    else if Concerns(trace[0], c) then Without(trace[1..], c)
    else [trace[0]] + Without(trace[1..], c)
  }

  /** The state without the request future of `c`, whatever it owns. */
  function Erase(s: System, c: nat): System {
    if s.process.None? then s
    else WithProcess(s, s.process.value.(access := Dropped(s.process.value.access, c)))
  }

  lemma CallerMaps(w: map<nat, Caller>, c: nat, d: nat, x: Caller)
    ensures w[c := x] - {c} == w - {c}
    ensures d != c ==> w[d := x] - {c} == (w - {c})[d := x]
    ensures (w - {d}) - {c} == (w - {c}) - {d}
    ensures (w - {c}) - {c} == w - {c}
    ensures c !in w ==> w - {c} == w
  {
  }

  /** What a client does before its guard is moved is undone by dropping its future. */
  lemma OwnStep(rules: Rules, s: System, e: Event, c: nat)
    requires Inv(rules, s) && Enabled(s, e) && Concerns(e, c) && !e.Detach?
    ensures Erase(Step(rules, s, e), c) == Erase(s, c)
  {
    hide DiskInv, HistoryInv, CoreInv, RoutingInv;
    var w := s.process.value.access.callers;
    var x := if e.Request? then Queued(e.update) else if e.Acquire? then Holding(w[c].update) else Awaiting(0);
    CallerMaps(w, c, c, x);
  }

  lemma EraseCallers(rules: Rules, s: System, e: Event, c: nat)
    requires Inv(rules, s) && Enabled(s, e) && !Concerns(e, c) && s.process.Some?
    requires e.Request? || e.Cancel? || e.Acquire? || e.Detach? || e.Reply?
    ensures Enabled(Erase(s, c), e) && Step(rules, Erase(s, c), e) == Erase(Step(rules, s, e), c)
  {
    hide DiskInv, HistoryInv, CoreInv, RoutingInv;
    var w := s.process.value.access.callers;
    match e
    case Request(d, u) => CallerMaps(w, c, d, Queued(u));
    case Acquire(d) =>
      assert !Holds(s.process.value.access, c);
      CallerMaps(w, c, d, Holding(w[d].update));
    case Detach(d) => CallerMaps(w, c, d, Awaiting(|s.log|));
    case Cancel(d) => CallerMaps(w, c, d, Awaiting(0));
    case Reply(d, _) => CallerMaps(w, c, d, Awaiting(0));
  }

  lemma EraseTask(rules: Rules, s: System, io: Io, c: nat)
    requires Inv(rules, s) && Enabled(s, Advance(io))
    ensures Enabled(Erase(s, c), Advance(io))
    ensures Step(rules, Erase(s, c), Advance(io)) == Erase(Step(rules, s, Advance(io)), c)
  {
    hide DiskInv, HistoryInv, CoreInv, RoutingInv, RepliesInv, AdvanceTxn, CanAdvance;
    assert CoreOf(s, s.process.value) == CoreOf(Erase(s, c), Erase(s, c).process.value);
    var p := s.process.value;
    EndErased(p.access, p.txn.value.client, p.txn.value.pc.Assign?, c);
  }

  lemma EndErased(a: Access, client: nat, ok: bool, c: nat)
    ensures TaskEnded(Dropped(a, c), client, ok) == Dropped(TaskEnded(a, client, ok), c)
  {
    if client in a.callers && a.callers[client].Awaiting? {
      CallerMaps(a.callers, c, client, Answered(a.callers[client].attempt, ok));
    }
  }

  /** Nobody else's step depends on whether the request of `c` is there. */
  lemma ErasedStep(rules: Rules, s: System, e: Event, c: nat)
    requires Inv(rules, s) && Enabled(s, e) && !Concerns(e, c)
    ensures Enabled(Erase(s, c), e) && Step(rules, Erase(s, c), e) == Erase(Step(rules, s, e), c)
  {
    hide Inv, AdvanceTxn, CanAdvance;
    if s.process.Some? {
      if e.Advance? {
        EraseTask(rules, s, e.io, c);
      } else if !e.Observe? && !e.Die? && !e.LosePower? {
        EraseCallers(rules, s, e, c);
      }
    } else if e.Boot? {
      var none: map<nat, Caller> := map[];
      assert none - {c} == none;
    }
  }

  lemma WithoutHead(trace: seq<Event>, c: nat)
    requires trace != [] && !Concerns(trace[0], c)
    ensures Without(trace, c) != [] && Without(trace, c)[0] == trace[0]
    ensures Without(trace, c)[1..] == Without(trace[1..], c)
  {
  }

  lemma RunCons(rules: Rules, s: System, trace: seq<Event>, t: System)
    requires trace != [] && Enabled(s, trace[0]) && Run(rules, Step(rules, s, trace[0]), trace[1..], t)
    ensures Run(rules, s, trace, t)
  {
  }

  /**
   * A client whose guard is never moved into a task, because it is cancelled while queued or while it
   * owns the guard, has no effect: erasing it gives a run to the same disk, memory and live state.
   */
  lemma {:induction false} CancelledBeforeTheMove(rules: Rules, s: System, trace: seq<Event>, t: System, c: nat)
    requires RulesSane(rules) && Inv(rules, s) && Run(rules, s, trace, t) && Detach(c) !in trace
    ensures Run(rules, Erase(s, c), Without(trace, c), Erase(t, c))
    decreases |trace|
  {
    hide Inv, Enabled, Step, Erase;
    if trace != [] {
      var e := trace[0];
      StepInv(rules, s, e);
      CancelledBeforeTheMove(rules, Step(rules, s, e), trace[1..], t, c);
      if Concerns(e, c) {
        OwnStep(rules, s, e, c);
      } else {
        ErasedStep(rules, s, e, c);
        WithoutHead(trace, c);
        RunCons(rules, Erase(s, c), Without(trace, c), Erase(t, c));
      }
    }
  }

  /** A future that owns no guard hinders nobody. */
  lemma BystanderAllows(s: System, e: Event, c: nat)
    requires Enabled(Erase(s, c), e) && !Concerns(e, c)
    requires s.process.Some? ==> !Holds(s.process.value.access, c)
    ensures Enabled(s, e)
  {
    hide CanAdvance;
    if s.process.Some? && e.Advance? {
      assert CoreOf(s, s.process.value) == CoreOf(Erase(s, c), Erase(s, c).process.value);
    }
  }

  lemma StillNotHolding(rules: Rules, s: System, e: Event, c: nat)
    requires Enabled(s, e) && !Concerns(e, c)
    requires s.process.Some? ==> !Holds(s.process.value.access, c)
    ensures var n := Step(rules, s, e); n.process.Some? ==> !Holds(n.process.value.access, c)
  {
    hide AdvanceTxn, CanAdvance;
  }

  /** The same run with the request future of `c` left alone beside it. */
  lemma {:induction false} WithBystander(rules: Rules, s: System, u: System, trace: seq<Event>, t: System, c: nat)
    returns (v: System)
    requires RulesSane(rules) && Inv(rules, u) && Run(rules, s, trace, t) && s == Erase(u, c)
    requires u.process.Some? ==> !Holds(u.process.value.access, c)
    requires forall e :: e in trace ==> !Concerns(e, c)
    ensures Run(rules, u, trace, v) && Erase(v, c) == t
    decreases |trace|
  {
    hide Inv, Enabled, Step, Erase;
    if trace == [] {
      v := u;
    } else {
      var e := trace[0];
      assert e in trace && forall f :: f in trace[1..] ==> f in trace;
      BystanderAllows(u, e, c);
      ErasedStep(rules, u, e, c);
      StillNotHolding(rules, u, e, c);
      StepInv(rules, u, e);
      v := WithBystander(rules, Step(rules, s, e), Step(rules, u, e), trace[1..], t, c);
    }
  }

  lemma {:induction false} WithoutConcernsNobody(trace: seq<Event>, c: nat)
    ensures forall e :: e in Without(trace, c) ==> !Concerns(e, c)
  {
    if trace != [] {
      WithoutConcernsNobody(trace[1..], c);
    }
  }

  /**
   * A client cancelled after the move makes no difference: from the same state, the same run without
   * the cancellation ends with the same disk, memory, live state and lock, and the same other callers.
   */
  lemma CancelledAfterTheMove(rules: Rules, s: System, trace: seq<Event>, t: System, c: nat) returns (v: System)
    requires RulesSane(rules) && Inv(rules, s) && Run(rules, s, trace, t) && Detach(c) !in trace
    requires s.process.Some? && IsAwaiting(s.process.value.access, c)
    ensures Run(rules, s, Without(trace, c), v) && Erase(v, c) == Erase(t, c)
  {
    hide Inv, Run, Enabled, Step;
    CancelledBeforeTheMove(rules, s, trace, t, c);
    WithoutConcernsNobody(trace, c);
    v := WithBystander(rules, Erase(s, c), s, Without(trace, c), Erase(t, c), c);
  }

  // ---- The task lets go ----

  /** Steps left until the task of a transaction ends at the latest. */
  function StepsLeft(pc: Pc): nat {
    match pc
    case Validate => 10
    case Prepare => 9
    case Create => 8
    case Write => 7
    case SyncTemp => 6
    case SyncParent => 5
    case Install => 4
    case Confirm => 3
    case Publish => 2
    case Assign => 1
    case Cleanup => 1
  }

  lemma TaskProgresses(rules: Rules, s: System, io: Io)
    requires Inv(rules, s) && s.process.Some? && s.process.value.txn.Some?
    ensures Enabled(s, Advance(io))
    ensures var n := Step(rules, s, Advance(io));
            && n.process.Some?
            && (if n.process.value.txn.None? then !n.process.value.access.locked
                else StepsLeft(n.process.value.txn.value.pc) < StepsLeft(s.process.value.txn.value.pc))
  {
    hide HistoryInv, RoutingInv, AccessInv, Encode, Apply, UpdateValid, Load, LiveOf;
  }

  function Advances(trace: seq<Event>): nat {
    if trace == [] then 0 else (if trace[0].Advance? then 1 else 0) + Advances(trace[1..])
  }

  function Begun(trace: seq<Event>): nat {
    if trace == [] then 0 else (if trace[0].Detach? then 1 else 0) + Begun(trace[1..])
  }

  function TaskLeft(s: System): nat {
    if s.process.Some? && s.process.value.txn.Some? then StepsLeft(s.process.value.txn.value.pc) else 0
  }

  lemma OthersKeepTask(rules: Rules, s: System, e: Event)
    requires Inv(rules, s) && Enabled(s, e) && !e.Advance?
    ensures TaskLeft(Step(rules, s, e)) <= TaskLeft(s) + if e.Detach? then 10 else 0
  {
    hide DiskInv, HistoryInv, RoutingInv, AccessInv, RepliesInv, CoreInv, CanAdvance;
  }

  /**
   * In any run, whoever moves in between and whatever the file operations do, a transaction takes at
   * most ten steps: those taken and those still left never exceed ten for each transaction begun.
   */
  lemma {:induction false} TransactionsAreShort(rules: Rules, s: System, trace: seq<Event>, t: System)
    requires RulesSane(rules) && Inv(rules, s) && Run(rules, s, trace, t)
    ensures Advances(trace) + TaskLeft(t) <= TaskLeft(s) + 10 * Begun(trace)
    decreases |trace|
  {
    hide Inv, Enabled, Step, TaskLeft;
    if trace != [] {
      var e := trace[0];
      StepInv(rules, s, e);
      if e.Advance? {
        AdvanceLowers(rules, s, e.io);
      } else {
        OthersKeepTask(rules, s, e);
      }
      TransactionsAreShort(rules, Step(rules, s, e), trace[1..], t);
    }
  }

  lemma AdvanceLowers(rules: Rules, s: System, io: Io)
    requires Inv(rules, s) && Enabled(s, Advance(io))
    ensures TaskLeft(Step(rules, s, Advance(io))) < TaskLeft(s)
  {
    hide Inv, Step, CanAdvance;
    TaskProgresses(rules, s, io);
  }

  /**
   * Whatever happens to its file operations, the task that owns the guard lets go of it after at most
   * ten of its own steps.
   */
  lemma {:induction false} TaskReleasesTheLock(rules: Rules, s: System, ios: seq<Io>)
    returns (trace: seq<Event>, t: System)
    requires RulesSane(rules) && Inv(rules, s) && s.process.Some? && s.process.value.txn.Some?
    requires |ios| >= StepsLeft(s.process.value.txn.value.pc)
    ensures 1 <= |trace| <= 10 && |trace| <= |ios| && forall i :: 0 <= i < |trace| ==> trace[i] == Advance(ios[i])
    ensures Run(rules, s, trace, t) && t.process.Some? && t.process.value.txn.None? && !t.process.value.access.locked
    ensures |trace| <= StepsLeft(s.process.value.txn.value.pc)
    decreases StepsLeft(s.process.value.txn.value.pc)
  {
    hide Inv, Enabled, Step;
    TaskProgresses(rules, s, ios[0]);
    StepInv(rules, s, Advance(ios[0]));
    var n := Step(rules, s, Advance(ios[0]));
    if n.process.value.txn.None? {
      trace, t := [Advance(ios[0])], n;
      assert trace[1..] == [] && Run(rules, n, [], n);
    } else {
      var rest;
      rest, t := TaskReleasesTheLock(rules, n, ios[1..]);
      trace := [Advance(ios[0])] + rest;
      assert trace[1..] == rest;
    }
  }
}
