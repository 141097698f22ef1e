/** Runs in which a commit that was reported as durable is undone by a power loss. */
module PolicyWitnesses {
  import opened Common
  import opened PolicyDocument
  import opened PolicyDisk
  import opened PolicyDurability
  import opened PolicyMachine
  import opened PolicyTheorems

  /** Before its rename a transaction has still to install its candidate. */
  predicate BeforeRename(pc: Pc) {
    pc in {Validate, Prepare, Create, Write, SyncTemp, SyncParent, Install}
  }

  /** Everything goes well, except that the directory sync after the rename fails. */
  function UnsyncedIo(pc: Pc, nonce: nat): Io {
    Io(!pc.Confirm?, nonce, Unparsable)
  }

  /** A transaction that nothing refuses. */
  ghost predicate Smooth(rules: Rules, s: System, nonce: nat) {
    && Inv(rules, s) && s.process.Some? && s.process.value.txn.Some?
    && var t := s.process.value.txn.value;
    && !t.pc.Cleanup?
    && (t.pc.Validate? ==> UpdateValid(rules, t.update))
    && (t.pc in {Validate, Prepare, Create} ==> s.disk.views != [] && Temp(nonce) !in Visible(s.disk))
  }

  lemma SmoothStep(rules: Rules, s: System, nonce: nat)
    requires RulesSane(rules) && Smooth(rules, s, nonce)
    ensures var t := s.process.value.txn.value; var e := Advance(UnsyncedIo(t.pc, nonce));
            && Enabled(s, e) && var n := Step(rules, s, e);
            && n.process.Some? && Inv(rules, n)
            && (if t.pc.Assign? then n.process.value.txn.None? && !n.process.value.access.locked
                else Smooth(rules, n, nonce) && SameTask(n, t) && n.process.value.current == s.process.value.current)
  {
    hide HistoryInv, Load, LiveOf, Encode, PoliciesValid, UpdateValid, Apply, Settled, Private, AccessInv, RoutingInv;
    hide RepliesInv, ViewInv, Recent, PublishTo;
    var io := UnsyncedIo(s.process.value.txn.value.pc, nonce);
    TaskProgresses(rules, s, io);
    StepInv(rules, s, Advance(io));
  }

  /** The task goes on with the same transaction, one step further. */
  predicate SameTask(n: System, t: Txn) {
    && n.process.Some? && n.process.value.txn.Some?
    && n.process.value.txn.value.client == t.client && n.process.value.txn.value.update == t.update
    && StepsLeft(n.process.value.txn.value.pc) == StepsLeft(t.pc) - 1
    && (n.process.value.txn.value.pc.Cleanup? ==> t.pc.Cleanup?)
  }

  /** What the step does to the policy file: only the rename installs, and it leaves the new file unsettled. */
  lemma SmoothFile(rules: Rules, s: System, nonce: nat)
    requires RulesSane(rules) && Smooth(rules, s, nonce)
    requires Enabled(s, Advance(UnsyncedIo(s.process.value.txn.value.pc, nonce))) && s.installed != []
    ensures var t := s.process.value.txn.value; var p := s.process.value;
            var n := Step(rules, s, Advance(UnsyncedIo(t.pc, nonce)));
            && (t.pc.Install? ==>
                  && n.installed == s.installed + [Some(Encode(Apply(p.current, t.update)))]
                  && (!Settled(n.disk, n.installed) <==> Last(n.installed) != Last(s.installed)))
            && (!t.pc.Install? ==> n.installed == s.installed)
            && (CommittedPc(t.pc) ==> n.disk == s.disk)
            && (t.pc.Assign? ==> n.process.Some? && n.process.value.current == Apply(p.current, t.update))
  {
    hide HistoryInv, Load, LiveOf, Encode, PoliciesValid, UpdateValid, Apply, Settled, Private, AccessInv, RoutingInv;
    hide RepliesInv, ViewInv, Recent, PublishTo;
    var t := s.process.value.txn.value;
    if t.pc.Install? {
      RenameInv(s.disk, s.installed, t);
      RenameSettled(s.disk, s.installed, t);
    }
  }

  /** Such a transaction ends with its candidate installed, and unsettled if it differs from the file before. */
  lemma {:induction false} SmoothRun(rules: Rules, s: System, nonce: nat) returns (trace: seq<Event>, t: System)
    requires RulesSane(rules) && Smooth(rules, s, nonce) && s.installed != []
    ensures Run(rules, s, trace, t) && Inv(rules, t) && t.process.Some?
    ensures t.process.value.txn.None? && !t.process.value.access.locked
    ensures var x := s.process.value.txn.value; var result := Apply(s.process.value.current, x.update);
            && t.process.value.current == result
            && (BeforeRename(x.pc) ==>
                  && t.installed == s.installed + [Some(Encode(result))]
                  && (!Settled(t.disk, t.installed) <==> Last(t.installed) != Last(s.installed)))
            && (!BeforeRename(x.pc) ==> t.installed == s.installed && t.disk == s.disk)
    decreases StepsLeft(s.process.value.txn.value.pc)
  {
    hide Inv, Enabled, Step, Smooth, Settled, Encode, Apply;
    SmoothHasTask(rules, s, nonce);
    var x := s.process.value.txn.value;
    var e := Advance(UnsyncedIo(x.pc, nonce));
    SmoothStep(rules, s, nonce);
    SmoothFile(rules, s, nonce);
    var n := Step(rules, s, e);
    if x.pc.Assign? {
      trace, t := [e], n;
      assert trace[1..] == [] && Run(rules, n, [], n);
    } else {
      var rest;
      rest, t := SmoothRun(rules, n, nonce);
      trace := [e] + rest;
      assert trace[1..] == rest;
    }
  }

  lemma SmoothHasTask(rules: Rules, s: System, nonce: nat)
    requires Smooth(rules, s, nonce)
    ensures s.process.Some? && s.process.value.txn.Some? && !s.process.value.txn.value.pc.Cleanup?
  {
  }

  /** The state between transactions, with nobody calling. */
  ghost predicate Quiet(rules: Rules, s: System) {
    && Inv(rules, s) && s.process.Some? && s.installed != [] && s.disk.views != []
    && s.process.value.txn.None? && !s.process.value.access.locked
  }

  /** A caller comes, takes the lock and moves the guard into its task. */
  lemma BeginSmooth(rules: Rules, s: System, c: nat, u: Update, nonce: nat) returns (trace: seq<Event>, t: System)
    requires RulesSane(rules) && Quiet(rules, s) && c !in s.process.value.access.callers
    requires UpdateValid(rules, u) && Temp(nonce) !in Visible(s.disk)
    ensures Run(rules, s, trace, t) && Smooth(rules, t, nonce)
    ensures t.process.value.txn.value.update == u && t.process.value.txn.value.pc.Validate?
    ensures t.installed == s.installed && t.process.value.current == s.process.value.current
  {
    hide Inv, AdvanceTxn, CanAdvance, Load, LiveOf, Committed;
    var e0, e1, e2 := Request(c, u), Acquire(c), Detach(c);
    var s1 := Step(rules, s, e0);
    var s2 := Step(rules, s1, e1);
    t := Step(rules, s2, e2);
    StepInv(rules, s, e0);
    StepInv(rules, s1, e1);
    StepInv(rules, s2, e2);
    trace := [e0, e1, e2];
    assert trace[1..] == [e1, e2] && [e1, e2][1..] == [e2] && [e2][1..] == [];
    assert Run(rules, t, [], t) && Run(rules, s2, [e2], t) && Run(rules, s1, [e1, e2], t);
  }

  /** One update whose last directory sync fails: it is committed, and in doubt if it changed the file. */
  lemma CommitUnsynced(rules: Rules, s: System, c: nat, u: Update) returns (trace: seq<Event>, t: System)
    requires RulesSane(rules) && Quiet(rules, s) && c !in s.process.value.access.callers && UpdateValid(rules, u)
    ensures Run(rules, s, trace, t) && Quiet(rules, t)
    ensures t.process.value.current == Apply(s.process.value.current, u)
    ensures t.installed == s.installed + [Some(Encode(t.process.value.current))]
    ensures !Settled(t.disk, t.installed) <==> Last(t.installed) != Last(s.installed)
  {
    hide Run, Smooth, Encode, Apply, Settled, UpdateValid;
    var used := set n | n in Visible(s.disk).Keys && n.Temp? :: n.nonce;
    SomeIdIsFree(used);
    var nonce: nat :| nonce !in used;
    assert Temp(nonce) !in Visible(s.disk);
    var first, m := BeginSmooth(rules, s, c, u, nonce);
    SmoothHasTask(rules, m, nonce);
    var second;
    second, t := SmoothRun(rules, m, nonce);
    RunConcat(rules, s, first, m, second, t);
    trace := first + second;
    HasViews(rules, t);
  }

  lemma HasViews(rules: Rules, s: System)
    requires Inv(rules, s)
    ensures s.disk.views != [] && s.installed != [] && DiskInv(s.disk, s.installed)
  {
  }

  lemma {:induction false} RunConcat(
    rules: Rules, s: System, a: seq<Event>, m: System, b: seq<Event>, t: System)
    requires Run(rules, s, a, m) && Run(rules, m, b, t)
    ensures Run(rules, s, a + b, t)
    decreases |a|
  {
    hide Enabled, Step;
    if a == [] {
      assert a + b == b;
    } else {
      RunConcat(rules, Step(rules, s, a[0]), a[1..], m, b, t);
      assert (a + b)[1..] == a[1..] + b;
    }
  }

  /** A machine on which no policy has ever been stored. */
  const BLANK: System := System(Disk([], [map[]]), None, [], [None])

  lemma FirstStart(rules: Rules) returns (t: System)
    requires RulesSane(rules)
    ensures Init(BLANK) && Run(rules, BLANK, [Boot(None)], t) && Quiet(rules, t)
    ensures t.installed == [None] && t.process.value.current == DefaultPolicies(rules)
    ensures t.process.value.access.callers == map[]
  {
    hide LiveOf;
    InitInv(rules, BLANK);
    t := Step(rules, BLANK, Boot(None));
    StepInv(rules, BLANK, Boot(None));
    assert [Boot(None)][1..] == [] && Run(rules, t, [], t);
  }

  /**
   * The very first commit, its last directory sync failing, can be lost: after the power loss there is
   * no policy file, although the update was reported as done and is in force.
   */
  lemma FirstCommitCanBeLost(rules: Rules, hooks: HooksConfig) returns (trace: seq<Event>, s: System, after: Disk)
    requires RulesSane(rules)
    ensures Reaches(rules, BLANK, trace, s) && Quiet(rules, s) && InDoubt(rules, BLANK, trace, false)
    ensures s.process.value.current.hooks == hooks && |s.installed| == 2
    ensures PowerLoss(s.disk, after) && PolicyFile(after).None?
  {
    hide Run, InDoubt, Settled, PowerLoss, Inv;
    var t := FirstStart(rules);
    var second;
    second, s := CommitUnsynced(rules, t, 0, SetHooks(hooks));
    trace := [Boot(None)] + second;
    RunConcat(rules, BLANK, [Boot(None)], t, second, s);
    NewestCommitCanBeLost(rules, BLANK, trace, s);
    HasViews(rules, s);
    after := UnsettledCanBeLost(s.disk, s.installed);
    LostExactlyIfUnsettled(s.disk, s.installed);
  }

  /**
   * So can a later one that changed the file: after the power loss the file is the complete snapshot of
   * the commit before.
   */
  lemma LaterCommitCanBeLost(rules: Rules, one: HooksConfig, two: HooksConfig)
    returns (trace: seq<Event>, s: System, after: Disk)
    requires RulesSane(rules) && one != two
    ensures Reaches(rules, BLANK, trace, s) && Quiet(rules, s) && InDoubt(rules, BLANK, trace, false)
    ensures s.process.value.current.hooks == two && |s.installed| == 3
    ensures PowerLoss(s.disk, after) && PolicyFile(after) == Some(Encode(s.process.value.current.(hooks := one)))
  {
    hide Run, InDoubt, Settled, PowerLoss, Inv;
    var first, m, lost := FirstCommitCanBeLost(rules, one);
    var client := FreeClient(m.process.value.access.callers.Keys);
    var second;
    second, s := CommitUnsynced(rules, m, client, SetHooks(two));
    trace := first + second;
    RunConcat(rules, BLANK, first, m, second, s);
    NewestCommitCanBeLost(rules, BLANK, trace, s);
    AgreementWhenFree(rules, BLANK, first, m);
    HasViews(rules, s);
    HasViews(rules, m);
    InstalledIsCurrent(rules, BLANK, first, m);
    after := UnsettledCanBeLost(s.disk, s.installed);
    LostExactlyIfUnsettled(s.disk, s.installed);
  }

  lemma FreeClient(used: set<nat>) returns (c: nat)
    ensures c !in used
  {
    SomeIdIsFree(used);
    c :| c !in used;
  }

  lemma InstalledIsCurrent(rules: Rules, s0: System, trace: seq<Event>, s: System)
    requires Reaches(rules, s0, trace, s) && Quiet(rules, s) && |s.installed| == 2
    ensures Last(s.installed) == Some(Encode(s.process.value.current))
  {
    hide Reaches, PowerLoss;
    AgreementWhenFree(rules, s0, trace, s);
    assert HistoryInv(rules, s.log, s.installed);
  }
}
