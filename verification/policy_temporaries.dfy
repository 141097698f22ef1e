/** Where temporary files of the policy directory come from that nobody removes any more. */
module PolicyTemporaries {
  import opened Common
  import opened PolicyDocument
  import opened PolicyDisk
  import opened PolicyMachine

  /** Temporary names in a directory. */
  function TempsIn(names: Directory): set<nat> {
    set name | name in names && name.Temp? :: name.nonce
  }

  /** The task owes the removal of its temporary file, now or after its next failure. */
  predicate OwesRemoval(pc: Pc) {
    pc in {Write, SyncTemp, SyncParent, Install, Cleanup}
  }

  /**
   * Names that a step leaves to nobody: that of a removal that fails, that of a task whose process dies
   * before it renamed or removed its file, and all that come back after a power loss.
   */
  ghost function LeftBehind(s: System, e: Event): set<nat> {
    match e
    case Advance(io) =>
      if s.process.Some? && s.process.value.txn.Some? && s.process.value.txn.value.pc.Cleanup? && !io.ok
      then {s.process.value.txn.value.temp} else {}
    case Die =>
      if s.process.Some? && s.process.value.txn.Some? && OwesRemoval(s.process.value.txn.value.pc)
      then {s.process.value.txn.value.temp} else {}
    case LosePower(after) => if after.views == [] then {} else TempsIn(Visible(after))
    case _ => {}
  }

  ghost function Leftovers(rules: Rules, s: System, trace: seq<Event>): set<nat>
    decreases |trace|
  {
    if trace == [] || !Enabled(s, trace[0]) then {}
    else LeftBehind(s, trace[0]) + Leftovers(rules, Step(rules, s, trace[0]), trace[1..])
  }

  /** Every visible temporary file is a known one or that of the task, which will still remove it. */
  ghost predicate Accounted(s: System, known: set<nat>) {
    && s.disk.views != []
    && forall n :: Temp(n) in Visible(s.disk) ==> n in known || OwedByTask(s, n)
  }

  predicate OwedByTask(s: System, n: nat) {
    && s.process.Some? && s.process.value.txn.Some?
    && s.process.value.txn.value.temp == n && OwesRemoval(s.process.value.txn.value.pc)
  }

  lemma TaskAccounted(rules: Rules, s: System, io: Io, known: set<nat>)
    requires Accounted(s, known) && Enabled(s, Advance(io))
    ensures Accounted(Step(rules, s, Advance(io)), known + LeftBehind(s, Advance(io)))
  {
    hide Encode, Apply, UpdateValid, PublishTo, PolicyFile, AroundTask;
  }

  lemma OtherAccounted(rules: Rules, s: System, e: Event, known: set<nat>)
    requires Inv(rules, s) && Accounted(s, known) && Enabled(s, e) && !e.Advance?
    ensures Accounted(Step(rules, s, e), known + LeftBehind(s, e))
  {
    hide CanAdvance, AdvanceTxn, Load, LiveOf, DropNewestCommit, Dropped;
    hide DiskInv, HistoryInv, CoreInv, RepliesInv, RoutingInv, Refused;
    if e.LosePower? {
      assert forall n :: Temp(n) in Visible(e.after) ==> n in TempsIn(Visible(e.after));
    }
  }

  lemma {:induction false} RunAccounted(rules: Rules, s: System, trace: seq<Event>, t: System, known: set<nat>)
    requires RulesSane(rules) && Inv(rules, s) && Accounted(s, known) && Run(rules, s, trace, t)
    ensures Accounted(t, known + Leftovers(rules, s, trace))
    decreases |trace|
  {
    hide Inv, Step, Enabled, Accounted, LeftBehind;
    if trace == [] {
      assert known + {} == known;
    } else {
      var e := trace[0];
      if e.Advance? {
        TaskAccounted(rules, s, e.io, known);
      } else {
        OtherAccounted(rules, s, e, known);
      }
      StepInv(rules, s, e);
      var n, now := Step(rules, s, e), known + LeftBehind(s, e);
      RunAccounted(rules, n, trace[1..], t, now);
      assert now + Leftovers(rules, n, trace[1..]) == known + Leftovers(rules, s, trace);
    }
  }

  /**
   * Failed updates clean up behind themselves: a temporary file that is visible while no transaction is
   * under way was there at the start, or its removal failed, or its process died before it could remove
   * it, or a power loss brought it back. Inside a transaction there is besides only the task's own.
   */
  lemma TemporariesAreAccounted(rules: Rules, s0: System, trace: seq<Event>, s: System, n: nat)
    requires RulesSane(rules) && Init(s0) && Run(rules, s0, trace, s)
    ensures s.disk.views != []
    ensures Temp(n) in Visible(s.disk) ==>
              n in TempsIn(Visible(s0.disk)) || n in Leftovers(rules, s0, trace) || OwedByTask(s, n)
    ensures s.process.None? || s.process.value.txn.None? ==> !OwedByTask(s, n)
  {
    hide Run, Leftovers, Inv;
    InitInv(rules, s0);
    var known := TempsIn(Visible(s0.disk));
    assert forall k :: Temp(k) in Visible(s0.disk) ==> k in known;
    RunAccounted(rules, s0, trace, s, known);
  }
}
