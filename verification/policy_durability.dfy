/** When the newest installation of the policy file can still be undone by a power loss. */
module PolicyDurability {
  import opened Common
  import opened PolicyDocument
  import opened PolicyDisk
  import opened PolicyMachine

  /** The step is a directory sync that succeeds, before or after a rename. */
  ghost predicate SyncsDirectory(s: System, e: Event) {
    && e.Advance? && e.io.ok
    && s.process.Some? && s.process.value.txn.Some? && s.process.value.txn.value.pc in {SyncParent, Confirm}
  }

  /** Whether the newest rename is unsynced and changed the file, after one more step. */
  ghost function DoubtAfter(rules: Rules, s: System, e: Event, doubt: bool): bool
    requires Enabled(s, e)
  {
    var n := Step(rules, s, e);
    if e.LosePower? || SyncsDirectory(s, e) then false
    else if s.installed != [] && |n.installed| > |s.installed| then Last(n.installed) != Last(s.installed)
    else doubt
  }

  /**
   * The newest rename of the run replaced the policy file by a different one, and since then no
   * directory sync has succeeded and no power was lost; `doubt` is the answer for the time before.
   */
  ghost function InDoubt(rules: Rules, s: System, trace: seq<Event>, doubt: bool): bool
    decreases |trace|
  {
    if trace == [] || !Enabled(s, trace[0]) then doubt
    else InDoubt(rules, Step(rules, s, trace[0]), trace[1..], DoubtAfter(rules, s, trace[0], doubt))
  }

  // ---- Which steps keep the directory settled ----

  lemma AddViewSettled(d: Disk, d': Disk, installed: seq<Option<Content>>)
    requires DiskInv(d, installed)
    requires |d'.views| == |d.views| + 1 && d'.views[..|d.views|] == d.views
    requires d.inodes <= d'.inodes
    requires Get(Visible(d'), Policy) == Get(Visible(d), Policy)
    ensures Settled(d', installed) <==> Settled(d, installed)
  {
    hide Recent;
    forall i | 0 <= i < |d.views|
      ensures FileIn(d', d'.views[i]) == FileIn(d, d.views[i])
    {
      assert d'.views[i] == d'.views[..|d.views|][i] == d.views[i];
      assert ViewInv(d, installed, d.views[i]);
    }
    var last := d.views[|d.views| - 1];
    assert ViewInv(d, installed, last) && FileIn(d', d'.views[|d.views|]) == FileIn(d, last) == Last(installed);
  }

  lemma SameFilesSettled(d: Disk, d': Disk, inode: nat, installed: seq<Option<Content>>)
    requires installed != [] && d'.views == d.views && |d'.inodes| == |d.inodes|
    requires Private(d, inode)
    requires forall k :: 0 <= k < |d.inodes| && k != inode ==> d'.inodes[k] == d.inodes[k]
    ensures Settled(d', installed) <==> Settled(d, installed)
  {
    forall i | 0 <= i < |d.views|
      ensures FileIn(d', d'.views[i]) == FileIn(d, d.views[i])
    {
      assert Get(d.views[i], Policy) != Some(inode);
    }
  }

  /** A rename leaves the directory settled exactly if it changed nothing. */
  lemma RenameSettled(d: Disk, installed: seq<Option<Content>>, t: Txn)
    requires DiskInv(d, installed) && t.pc.Install? && StagedInv(d, installed, t)
    ensures var d' := Rename(d, Temp(t.temp)); var newest := Some(Encode(t.candidate));
            Settled(d', installed + [newest]) <==> newest == Last(installed)
  {
    var d' := Rename(d, Temp(t.temp));
    RenameInv(d, installed, t);
    assert d'.views[|d.views| - 1] == d.views[|d.views| - 1];
    assert FileIn(d', d'.views[|d.views| - 1]) == PolicyFile(d) == Last(installed);
    forall i | 0 <= i < |d.views|
      ensures FileIn(d', d'.views[i]) == Last(installed)
    {
      assert d'.views[i] == d.views[i] && FileIn(d', d'.views[i]) == FileIn(d, d.views[i]);
    }
    assert FileIn(d', d'.views[|d.views|]) == Some(Encode(t.candidate));
  }

  lemma AdvanceDoubt(rules: Rules, s: System, io: Io, doubt: bool)
    requires Inv(rules, s) && Enabled(s, Advance(io)) && doubt == !Settled(s.disk, s.installed)
    ensures var n := Step(rules, s, Advance(io));
            n.installed != [] && (DoubtAfter(rules, s, Advance(io), doubt) <==> !Settled(n.disk, n.installed))
  {
    hide HistoryInv, PoliciesValid, Load, LiveOf, UpdateValid, Apply, Encode, DiskInv, Settled, Private, AccessInv;
    hide RepliesInv, RoutingInv;
    var d, t := s.disk, s.process.value.txn.value;
    match t.pc {
      case Create =>
        if io.ok && Temp(io.nonce) !in Visible(d) {
          AddViewSettled(d, CreateNew(d, Temp(io.nonce)), s.installed);
        }
      case Write => SameFilesSettled(d, Step(rules, s, Advance(io)).disk, t.inode, s.installed);
      case SyncTemp => SameFilesSettled(d, Step(rules, s, Advance(io)).disk, t.inode, s.installed);
      case SyncParent => SyncDirectoryInv(d, s.installed);
      case Confirm => SyncDirectoryInv(d, s.installed);
      case Install =>
        if io.ok {
          RenameInv(d, s.installed, t);
          RenameSettled(d, s.installed, t);
        }
      case Cleanup => AddViewSettled(d, Remove(d, Temp(t.temp)), s.installed);
      case _ =>
    }
  }

  lemma DoubtStep(rules: Rules, s: System, e: Event, doubt: bool)
    requires Inv(rules, s) && Enabled(s, e) && s.installed != [] && doubt == !Settled(s.disk, s.installed)
    ensures var n := Step(rules, s, e);
            n.installed != [] && (DoubtAfter(rules, s, e, doubt) <==> !Settled(n.disk, n.installed))
  {
    hide Inv, Step, Enabled, DoubtAfter, Settled;
    if e.Advance? {
      AdvanceDoubt(rules, s, e.io, doubt);
    } else if e.LosePower? {
      PowerDoubt(rules, s, e.after, doubt);
    } else {
      OtherDoubt(rules, s, e, doubt);
    }
  }

  lemma PowerDoubt(rules: Rules, s: System, after: Disk, doubt: bool)
    requires Inv(rules, s) && Enabled(s, LosePower(after))
    ensures var n := Step(rules, s, LosePower(after));
            n.installed != [] && !DoubtAfter(rules, s, LosePower(after), doubt) && Settled(n.disk, n.installed)
  {
    hide HistoryInv, CoreInv, PowerLoss, AccessInv, RoutingInv, RepliesInv, ViewInv;
    SurvivingFile(s.disk, s.installed, after);
    OneView(s.disk, after);
  }

  lemma OtherDoubt(rules: Rules, s: System, e: Event, doubt: bool)
    requires Enabled(s, e) && s.installed != [] && !e.Advance? && !e.LosePower?
    ensures var n := Step(rules, s, e);
            n.disk == s.disk && n.installed == s.installed && DoubtAfter(rules, s, e, doubt) == doubt
  {
    hide CanAdvance, AdvanceTxn, Load, Settled, LiveOf;
  }

  /** The state is unsettled exactly if the run leaves the newest rename in doubt. */
  lemma {:induction false} InDoubtIsUnsettled(rules: Rules, s: System, trace: seq<Event>, t: System, doubt: bool)
    requires RulesSane(rules) && Inv(rules, s) && Run(rules, s, trace, t)
    requires s.installed != [] && doubt == !Settled(s.disk, s.installed)
    ensures t.installed != [] && (InDoubt(rules, s, trace, doubt) <==> !Settled(t.disk, t.installed))
    decreases |trace|
  {
    hide Inv, Step, Enabled, DoubtAfter, Settled;
    if trace != [] {
      DoubtStep(rules, s, trace[0], doubt);
      StepInv(rules, s, trace[0]);
      InDoubtIsUnsettled(rules, Step(rules, s, trace[0]), trace[1..], t, DoubtAfter(rules, s, trace[0], doubt));
    }
  }

  // ---- What a power loss can then find ----

  ghost predicate CanBeLost(d: Disk, installed: seq<Option<Content>>)
    requires installed != []
  {
    exists after :: PowerLoss(d, after) && FileIn(after, after.views[0]) != Last(installed)
  }

  /** An unsettled directory can come back with the previous installation. */
  lemma UnsettledCanBeLost(d: Disk, installed: seq<Option<Content>>) returns (after: Disk)
    requires DiskInv(d, installed) && !Settled(d, installed)
    ensures PowerLoss(d, after) && |installed| >= 2
    ensures PolicyFile(after) == installed[|installed| - 2] != Last(installed)
  {
    var i :| 0 <= i < |d.views| && FileIn(d, d.views[i]) != Last(installed);
    assert ViewInv(d, installed, d.views[i]);
    after := Disk(seq(|d.inodes|, k requires 0 <= k < |d.inodes| => d.inodes[k].(synced := true)), [d.views[i]]);
    assert FileIn(after, after.views[0]) == FileIn(d, d.views[i]);
  }

  lemma LostExactlyIfUnsettled(d: Disk, installed: seq<Option<Content>>)
    requires installed != [] && DiskInv(d, installed)
    ensures CanBeLost(d, installed) <==> !Settled(d, installed)
  {
    hide DiskInv, PowerLoss, Settled;
    if Settled(d, installed) {
      forall after | PowerLoss(d, after)
        ensures |after.views| == 1 && FileIn(after, after.views[0]) == Last(installed)
      {
        OneView(d, after);
        SurvivingFile(d, installed, after);
      }
    } else {
      var after := UnsettledCanBeLost(d, installed);
      OneView(d, after);
    }
  }

  lemma OneView(d: Disk, after: Disk)
    requires PowerLoss(d, after)
    ensures |after.views| == 1 && PolicyFile(after) == FileIn(after, after.views[0])
  {
  }
}
