/**
 * Cloned flow handles racing with each other and with snapshots: testing the finished flag and
 * entering the monitor are separate steps, so bytes and removals of one flow interleave freely.
 */
module TrafficRaces {
  import opened Common
  import opened TrafficWindow
  import opened TrafficMonitoring

  /** A `record_bytes` call that has passed the flag and not yet entered the monitor. */
  datatype Pending = Pending(id: nat, dir: Direction, bytes: nat)

  /**
   * `removing` are the winners of the flag swap still on their way to the monitor, `closed` the
   * final counts of removed flows; `clock` is the latest reading and `ordered` whether readings
   * have never gone back.
   */
  datatype Race = Race(
    traffic: TrafficState,
    ids: seq<nat>,
    flagged: set<nat>,
    pending: multiset<Pending>,
    removing: set<nat>,
    closed: map<nat, ActiveFlow>,
    log: seq<Sample>,
    clock: nat,
    ordered: bool)

  datatype Event =
    | Start(id: nat, host: string)
    | TestFlag(id: nat, dir: Direction, bytes: nat)
    | Enter(p: Pending, now: nat)
    | SwapFlag(id: nat)
    | Remove(id: nat)
    | Snapshot(now: nat)

  const INITIAL: Race := Race(EMPTY, [], {}, multiset{}, {}, map[], [], 0, true)

  predicate Enabled(r: Race, e: Event) {
    match e
    case Start(id, _) => id !in r.ids
    case TestFlag(id, _, _) => id in r.ids
    case Enter(p, now) => p in r.pending && now <= MAX_U64
    case SwapFlag(id) => id in r.ids
    case Remove(id) => id in r.removing && id in r.traffic.flows
    case Snapshot(now) => now <= MAX_U64
  }

  predicate Counts(r: Race, p: Pending) {
    p.id in r.traffic.flows && !p.dir.OtherDirection?
  }

  function Step(r: Race, e: Event): Race
    requires Enabled(r, e)
  {
    match e
    case Start(id, host) =>
      r.(traffic := Started(r.traffic, id, host), ids := r.ids + [id])
    case TestFlag(id, dir, bytes) =>
      if id in r.flagged then r else r.(pending := r.pending + multiset{Pending(id, dir, bytes)})
    case Enter(p, now) =>
      var next := r.(pending := r.pending - multiset{p}, traffic := Recorded(r.traffic, p.id, p.dir, p.bytes, now));
      if !Counts(r, p) then next
      else next.(log := r.log + [Sample(p.id, p.dir, p.bytes, now)],
                 clock := now, ordered := r.ordered && r.clock <= now)
    case SwapFlag(id) =>
      if id in r.flagged then r else r.(flagged := r.flagged + {id}, removing := r.removing + {id})
    case Remove(id) =>
      r.(traffic := Finished(r.traffic, id), removing := r.removing - {id},
         closed := r.closed[id := r.traffic.flows[id]])
    case Snapshot(now) =>
      r.(traffic := r.traffic.(buckets := Pruned(r.traffic.buckets, now)),
         clock := now, ordered := r.ordered && r.clock <= now)
  }

  predicate Run(r: Race, trace: seq<Event>, t: Race)
    decreases |trace|
  {
    if trace == [] then r == t
    else Enabled(r, trace[0]) && Run(Step(r, trace[0]), trace[1..], t)
  }

  // ---- Flows and their counts ----

  /** Current, or for a removed flow final, byte count. */
  function CountOf(r: Race, id: nat, dir: Direction): nat {
    if id in r.traffic.flows then FlowBytes(r.traffic.flows[id], dir)
    else if id in r.closed then FlowBytes(r.closed[id], dir)
    else 0
  }

  ghost function FlowSum(log: seq<Sample>, id: nat, dir: Direction): nat {
    SumWhere(log, (s: Sample) => s.flow == id && s.dir == dir)
  }

  ghost function DirSum(log: seq<Sample>, dir: Direction): nat {
    SumWhere(log, (s: Sample) => s.dir == dir)
  }

  /** Every started flow is active or closed; winners of the swap remove theirs exactly once. */
  ghost predicate Membership(ids: seq<nat>, active: set<nat>, closed: set<nat>, flagged: set<nat>, removing: set<nat>) {
    && (forall i, j :: 0 <= i < j < |ids| ==> ids[i] != ids[j])
    && (forall id :: id in ids <==> id in active || id in closed)
    && active !! closed
    && flagged == removing + closed && removing !! closed
    && removing <= active
  }

  ghost predicate Logged(log: seq<Sample>, ids: seq<nat>) {
    forall i :: 0 <= i < |log| ==> log[i].flow in ids && Countable(log[i].dir)
  }

  ghost predicate FlowsInv(r: Race) {
    && Membership(r.ids, r.traffic.flows.Keys, r.closed.Keys, r.flagged, r.removing)
    && Logged(r.log, r.ids)
    && |r.traffic.buckets| <= MAX_RATE_BUCKETS
  }

  /** As long as the bytes counted fit 64 bits, every counter is exact. */
  ghost predicate ExactInv(r: Race) {
    TotalBytes(r.log) <= MAX_U64 ==>
      && (forall dir :: Countable(dir) ==> Total(r.traffic, dir) == DirSum(r.log, dir))
      && (forall id, dir :: Countable(dir) ==> CountOf(r, id, dir) == FlowSum(r.log, id, dir))
      && (r.ordered ==> WindowInv(r.log, r.traffic.buckets, r.clock))
  }

  ghost predicate Inv(r: Race) {
    FlowsInv(r) && ExactInv(r)
  }

  lemma RecordedShape(s: TrafficState, id: nat, dir: Direction, bytes: nat, now: nat)
    requires |s.buckets| <= MAX_RATE_BUCKETS
    ensures var r := Recorded(s, id, dir, bytes, now);
            r.flows.Keys == s.flows.Keys && |r.buckets| <= MAX_RATE_BUCKETS
  {
  }

  lemma {:induction false} PrunedLength(buckets: seq<RateBucket>, now: nat)
    ensures |Pruned(buckets, now)| <= |buckets|
  {
    if buckets != [] && Stale(buckets[0].startMs, now) {
      PrunedLength(buckets[1..], now);
    }
  }

  lemma StartFlows(r: Race, id: nat, host: string)
    requires FlowsInv(r) && Enabled(r, Start(id, host))
    ensures FlowsInv(Step(r, Start(id, host)))
  {
    assert Started(r.traffic, id, host).flows.Keys == r.traffic.flows.Keys + {id};
  }

  lemma RemoveFlows(r: Race, id: nat)
    requires FlowsInv(r) && Enabled(r, Remove(id))
    ensures FlowsInv(Step(r, Remove(id)))
  {
    assert Finished(r.traffic, id).flows.Keys == r.traffic.flows.Keys - {id};
    assert r.closed[id := r.traffic.flows[id]].Keys == r.closed.Keys + {id};
  }

  lemma FlowsStep(r: Race, e: Event)
    requires FlowsInv(r) && Enabled(r, e)
    ensures FlowsInv(Step(r, e))
  {
    hide Recorded, Pruned, Started, Finished;
    match e
    case Start(id, host) => StartFlows(r, id, host);
    case Remove(id) => RemoveFlows(r, id);
    case Enter(p, now) =>
      RecordedShape(r.traffic, p.id, p.dir, p.bytes, now);
      assert Counts(r, p) ==> p.id in r.ids;
    case Snapshot(now) => PrunedLength(r.traffic.buckets, now);
    case SwapFlag(id) => assert id in r.traffic.flows.Keys || id in r.closed.Keys;
    case TestFlag(_, _, _) =>
  }

  lemma SumsAppend(log: seq<Sample>, s: Sample)
    ensures TotalBytes(log + [s]) == TotalBytes(log) + s.bytes
    ensures forall dir :: DirSum(log + [s], dir) == DirSum(log, dir) + (if s.dir == dir then s.bytes else 0)
    ensures forall id, dir ::
              FlowSum(log + [s], id, dir) ==
              FlowSum(log, id, dir) + (if s.flow == id && s.dir == dir then s.bytes else 0)
    ensures forall dir :: DirSum(log, dir) <= TotalBytes(log)
    ensures forall id, dir :: FlowSum(log, id, dir) <= TotalBytes(log)
  {
    SumAppend(log, s, _ => true);
    forall dir
      ensures DirSum(log + [s], dir) == DirSum(log, dir) + (if s.dir == dir then s.bytes else 0)
      ensures DirSum(log, dir) <= TotalBytes(log)
    {
      SumAppend(log, s, (x: Sample) => x.dir == dir);
      SumBounded(log, (x: Sample) => x.dir == dir);
    }
    forall id, dir
      ensures FlowSum(log + [s], id, dir) ==
              FlowSum(log, id, dir) + (if s.flow == id && s.dir == dir then s.bytes else 0)
      ensures FlowSum(log, id, dir) <= TotalBytes(log)
    {
      SumAppend(log, s, (x: Sample) => x.flow == id && x.dir == dir);
      SumBounded(log, (x: Sample) => x.flow == id && x.dir == dir);
    }
  }

  lemma EnterExact(r: Race, p: Pending, now: nat)
    requires Inv(r) && Enabled(r, Enter(p, now)) && Counts(r, p)
    ensures ExactInv(Step(r, Enter(p, now)))
  {
    hide Credited, WindowInv, TotalBytes, DirSum, FlowSum;
    var s := Sample(p.id, p.dir, p.bytes, now);
    var r' := Step(r, Enter(p, now));
    SumsAppend(r.log, s);
    if TotalBytes(r'.log) <= MAX_U64 && r'.ordered {
      CreditInv(r.log, r.traffic.buckets, r.clock, s);
    }
  }

  lemma ExactStep(r: Race, e: Event)
    requires Inv(r) && Enabled(r, e)
    ensures ExactInv(Step(r, e))
  {
    hide Credited, WindowInv, TotalBytes, DirSum, FlowSum, Pruned;
    match e
    case Enter(p, now) =>
      if Counts(r, p) {
        EnterExact(r, p, now);
      }
    case Start(id, host) => StartExact(r, id, host);
    case Snapshot(now) =>
      if r.ordered && r.clock <= now && TotalBytes(r.log) <= MAX_U64 {
        PruneInv(r.log, r.traffic.buckets, r.clock, now);
      }
    case _ =>
  }

  /** A new flow has counted nothing yet. */
  lemma StartExact(r: Race, id: nat, host: string)
    requires Inv(r) && Enabled(r, Start(id, host))
    ensures ExactInv(Step(r, Start(id, host)))
  {
    hide WindowInv, TotalBytes, DirSum;
    forall dir
      ensures FlowSum(r.log, id, dir) == 0
    {
      SumNone(r.log, (s: Sample) => s.flow == id && s.dir == dir);
    }
  }

  lemma {:induction false} RunInv(r: Race, trace: seq<Event>, t: Race)
    requires Inv(r) && Run(r, trace, t)
    ensures Inv(t)
    decreases |trace|
  {
    hide FlowsInv, ExactInv, Step, Enabled;
    if trace != [] {
      FlowsStep(r, trace[0]);
      ExactStep(r, trace[0]);
      RunInv(Step(r, trace[0]), trace[1..], t);
    }
  }

  lemma InitialInv()
    ensures Inv(INITIAL)
  {
    assert forall id, dir :: FlowSum([], id, dir) == 0;
  }

  // ---- Main results ----

  ghost function SumOverFlows(r: Race, ids: seq<nat>, dir: Direction): nat {
    if ids == [] then 0 else CountOf(r, ids[0], dir) + SumOverFlows(r, ids[1..], dir)
  }

  lemma {:induction false} SumsByFlow(r: Race, ids: seq<nat>, dir: Direction)
    requires forall i, j :: 0 <= i < j < |ids| ==> ids[i] != ids[j]
    requires forall i :: 0 <= i < |ids| ==> CountOf(r, ids[i], dir) == FlowSum(r.log, ids[i], dir)
    ensures SumOverFlows(r, ids, dir) == SumWhere(r.log, (s: Sample) => s.dir == dir && s.flow in ids)
  {
    if ids == [] {
      SumNone(r.log, (s: Sample) => s.dir == dir && s.flow in ids);
    } else {
      SumsByFlow(r, ids[1..], dir);
      var p := (s: Sample) => s.dir == dir && s.flow in ids;
      var q := (s: Sample) => s.flow == ids[0];
      SumSplit(r.log, p, q);
      SumExt(r.log, (s: Sample) => p(s) && q(s), (s: Sample) => s.flow == ids[0] && s.dir == dir);
      SumExt(r.log, (s: Sample) => p(s) && !q(s), (s: Sample) => s.dir == dir && s.flow in ids[1..]);
    }
  }

  /**
   * Byte conservation under races: for any interleaving and any clock readings, each total equals
   * the sum over all flows, active and finished, of their counts, provided the bytes counted fit
   * 64 bits; the bucket queue never exceeds six.
   */
  lemma BytesConserved(trace: seq<Event>, r: Race, dir: Direction)
    requires Run(INITIAL, trace, r) && Countable(dir)
    ensures |r.traffic.buckets| <= MAX_RATE_BUCKETS
    ensures TotalBytes(r.log) <= MAX_U64 ==>
              && Total(r.traffic, dir) == SumOverFlows(r, r.ids, dir)
              && Total(r.traffic, dir) == DirSum(r.log, dir)
    ensures r.log == Counted(trace, {})
  {
    LogIsCounted(INITIAL, trace, r);
    assert INITIAL.traffic.flows.Keys == {};
    InitialInv();
    RunInv(INITIAL, trace, r);
    if TotalBytes(r.log) <= MAX_U64 {
      SumsByFlow(r, r.ids, dir);
      SumExt(r.log, (s: Sample) => s.dir == dir, (s: Sample) => s.dir == dir && s.flow in r.ids);
    }
  }

  lemma ClosedStep(r: Race, e: Event, id: nat)
    requires FlowsInv(r) && Enabled(r, e)
    ensures var r' := Step(r, e);
            && (id in r.closed ==> e != Remove(id) && id in r'.closed && r'.closed[id] == r.closed[id])
            && (id !in r.closed ==> (id in r'.closed <==> e == Remove(id)))
  {
    hide Recorded, Pruned;
  }

  /** Flows between their start and their removal, after one more event. */
  function ActiveAfter(active: set<nat>, e: Event): set<nat> {
    match e
    case Start(id, _) => active + {id}
    case Remove(id) => active - {id}
    case _ => active
  }

  /** What a run counts, read off its events: bytes in a known direction that enter while their flow is active. */
  function Counted(trace: seq<Event>, active: set<nat>): seq<Sample> {
    if trace == [] then []
    else CountedNow(active, trace[0]) + Counted(trace[1..], ActiveAfter(active, trace[0]))
  }

  function CountedNow(active: set<nat>, e: Event): seq<Sample> {
    if e.Enter? && e.p.id in active && e.p.dir != OtherDirection
    then [Sample(e.p.id, e.p.dir, e.p.bytes, e.now)]
    else []
  }

  /** The log behind the theorems about totals and rates is exactly that. */
  lemma {:induction false} LogIsCounted(r: Race, trace: seq<Event>, t: Race)
    requires Run(r, trace, t)
    ensures t.log == r.log + Counted(trace, r.traffic.flows.Keys)
    decreases |trace|
  {
    hide Enabled, Step, CountedNow, ActiveAfter;
    if trace != [] {
      CountedStep(r, trace[0]);
      LogIsCounted(Step(r, trace[0]), trace[1..], t);
    }
  }

  lemma CountedStep(r: Race, e: Event)
    requires Enabled(r, e)
    ensures Step(r, e).traffic.flows.Keys == ActiveAfter(r.traffic.flows.Keys, e)
    ensures Step(r, e).log == r.log + CountedNow(r.traffic.flows.Keys, e)
  {
    hide Recorded, Pruned;
    match e
    case Enter(p, now) => RecordedKeys(r.traffic, p.id, p.dir, p.bytes, now);
    case Start(id, host) => assert Started(r.traffic, id, host).flows.Keys == r.traffic.flows.Keys + {id};
    case Remove(id) => assert Finished(r.traffic, id).flows.Keys == r.traffic.flows.Keys - {id};
    case _ =>
  }

  lemma RecordedKeys(s: TrafficState, id: nat, dir: Direction, bytes: nat, now: nat)
    ensures Recorded(s, id, dir, bytes, now).flows.Keys == s.flows.Keys
  {
    hide Credited;
  }

  /** Once a flow is removed, no later step of any handle changes its final counts or revives it. */
  lemma {:induction false} RemovedFlowsAreFinal(r: Race, trace: seq<Event>, t: Race, id: nat)
    requires Inv(r) && Run(r, trace, t) && id in r.closed
    ensures id in t.closed && t.closed[id] == r.closed[id] && id !in t.traffic.flows
    decreases |trace|
  {
    hide ExactInv, Step, Enabled;
    if trace == [] {
      assert FlowsInv(t);
    } else {
      FlowsStep(r, trace[0]);
      ExactStep(r, trace[0]);
      ClosedStep(r, trace[0], id);
      RemovedFlowsAreFinal(Step(r, trace[0]), trace[1..], t, id);
    }
  }

  /** Late bytes of a removed flow change no total, no bucket and no other flow. */
  lemma LateBytesAreDropped(r: Race, p: Pending, now: nat)
    requires Inv(r) && Enabled(r, Enter(p, now)) && p.id in r.closed
    ensures Step(r, Enter(p, now)) == r.(pending := r.pending - multiset{p})
  {
  }

  ghost function Removals(trace: seq<Event>, id: nat): nat {
    if trace == [] then 0 else (if trace[0] == Remove(id) then 1 else 0) + Removals(trace[1..], id)
  }

  /** However many clones finish a flow, it is removed exactly once if at all. */
  lemma {:induction false} RemovedAtMostOnce(r: Race, trace: seq<Event>, t: Race, id: nat)
    requires Inv(r) && Run(r, trace, t)
    ensures Removals(trace, id) == (if id in t.closed then 1 else 0) - (if id in r.closed then 1 else 0)
    decreases |trace|
  {
    hide ExactInv, Step, Enabled;
    if trace != [] {
      FlowsStep(r, trace[0]);
      ExactStep(r, trace[0]);
      ClosedStep(r, trace[0], id);
      RemovedAtMostOnce(Step(r, trace[0]), trace[1..], t, id);
    }
  }

  /**
   * The reported window refines the full history: with clock readings that never went back, a snapshot at
   * `now` reports, per second, exactly the bytes ever counted in its window, less the one second that a
   * fully busy closed window has pushed out, over the time since the oldest second seen; and it reports
   * the total of everything ever counted.
   */
  lemma SnapshotRefinesHistory(trace: seq<Event>, r: Race, now: nat, dir: Direction)
    returns (elapsed: nat, oldest: Option<nat>)
    requires Run(INITIAL, trace, r) && r.ordered && r.clock <= now <= MAX_U64
    requires Countable(dir) && TotalBytes(r.log) <= MAX_U64 && 1000 * WindowBytes(r.log, dir, now) <= MAX_U64
    ensures Covers(r.log, now, oldest, elapsed) && 1000 <= elapsed <= 5000
    ensures var rates := RatesOf(Step(r, Snapshot(now)).traffic, now);
            var pushedOut := if Crowded(r.log, now) then BytesAt(r.log, dir, now - 6000) else 0;
            var bytes := WindowBytes(r.log, dir, now) - pushedOut;
            var rate := if dir.ClientToUpstream? then rates.uploadPerSecond else rates.downloadPerSecond;
            && rate * elapsed <= 1000 * bytes < (rate + 1) * elapsed
            && DirSum(r.log, dir) == if dir.ClientToUpstream? then rates.totalUpload else rates.totalDownload
    ensures now % RATE_BUCKET_MS != 0 ==> !Crowded(r.log, now)
  {
    hide Align, Stale, TotalBytes, Pruned, ElapsedMs, BytesPerSecond, Inv, Run, BytesAt, HasSecond, RecentBytes;
    hide Covers, DirSum;
    InitialInv();
    RunInv(INITIAL, trace, r);
    ReachedWindow(r);
    PruneInv(r.log, r.traffic.buckets, r.clock, now);
    PrunedFront(r.traffic.buckets, now);
    var buckets := Pruned(r.traffic.buckets, now);
    elapsed := ElapsedMs(buckets, now);
    oldest := DivisorCovers(r.log, buckets, now, now);
    WindowRefinesLog(r.log, buckets, now, now, dir);
    var recent := RecentBytes(buckets, dir, now);
    RateBounds(recent, elapsed, r.log, dir, now);
    ReachedTotals(r, dir);
  }

  lemma ReachedTotals(r: Race, dir: Direction)
    requires Inv(r) && TotalBytes(r.log) <= MAX_U64 && Countable(dir)
    ensures Total(r.traffic, dir) == DirSum(r.log, dir)
  {
  }

  lemma ReachedWindow(r: Race)
    requires Inv(r) && r.ordered && TotalBytes(r.log) <= MAX_U64
    ensures WindowInv(r.log, r.traffic.buckets, r.clock)
  {
  }

  lemma RateBounds(recent: nat, elapsed: nat, log: seq<Sample>, dir: Direction, now: nat)
    requires elapsed > 0 && recent <= WindowBytes(log, dir, now) && 1000 * WindowBytes(log, dir, now) <= MAX_U64
    ensures var rate := BytesPerSecond(recent, elapsed);
            rate * elapsed <= 1000 * recent < (rate + 1) * elapsed
  {
    hide WindowBytes;
  }

  // ---- A window that loses a second ----

  lemma {:induction false} RunAppend(r: Race, trace: seq<Event>, t: Race, e: Event)
    requires Run(r, trace, t) && Enabled(t, e)
    ensures Run(r, trace + [e], Step(t, e))
    decreases |trace|
  {
    hide Enabled, Step;
    if trace == [] {
      assert Run(Step(t, e), [], Step(t, e));
      assert [e][1..] == [];
    } else {
      RunAppend(Step(r, trace[0]), trace[1..], t, e);
      assert (trace + [e])[1..] == trace[1..] + [e];
    }
  }

  /** One byte at the start of each of the first `k` seconds. */
  function Seconds(k: nat): seq<Sample> {
    if k == 0 then [] else Seconds(k - 1) + [Sample(0, ClientToUpstream, 1, 1000 * (k - 1))]
  }

  lemma {:induction false} SecondsAre(k: nat)
    ensures |Seconds(k)| == k && TotalBytes(Seconds(k)) == k
    ensures forall i :: 0 <= i < k ==> Seconds(k)[i] == Sample(0, ClientToUpstream, 1, 1000 * i)
    ensures k > 0 ==> BytesAt(Seconds(k), ClientToUpstream, 0) == 1
  {
    if k > 0 {
      SecondsAre(k - 1);
      assert Seconds(k)[..k - 1] == Seconds(k - 1);
      if k == 1 {
        assert BytesAt([], ClientToUpstream, 0) == 0;
      }
    }
  }

  ghost predicate Busy(r: Race, k: nat) {
    && 0 in r.ids && 0 in r.traffic.flows && 0 !in r.flagged && r.pending == multiset{}
    && r.log == Seconds(k) && r.ordered && r.clock == if k == 0 then 0 else 1000 * (k - 1)
  }

  lemma NextSecond(r: Race, k: nat)
    requires Busy(r, k) && 1000 * k <= MAX_U64
    ensures var e := TestFlag(0, ClientToUpstream, 1); var f := Enter(Pending(0, ClientToUpstream, 1), 1000 * k);
            Enabled(r, e) && Enabled(Step(r, e), f) && Busy(Step(Step(r, e), f), k + 1)
  {
    hide Credited;
  }

  lemma {:induction false} BusySeconds(k: nat) returns (trace: seq<Event>, r: Race)
    requires 1000 * k <= MAX_U64
    ensures Run(INITIAL, trace, r) && Busy(r, k)
  {
    hide Run, Busy, Step, Enabled;
    if k == 0 {
      trace, r := FirstFlow();
    } else {
      var before, s := BusySeconds(k - 1);
      NextSecond(s, k - 1);
      var e, f := TestFlag(0, ClientToUpstream, 1), Enter(Pending(0, ClientToUpstream, 1), 1000 * (k - 1));
      RunAppend(INITIAL, before, s, e);
      RunAppend(INITIAL, before + [e], Step(s, e), f);
      trace, r := before + [e] + [f], Step(Step(s, e), f);
    }
  }

  lemma FirstFlow() returns (trace: seq<Event>, r: Race)
    ensures Run(INITIAL, trace, r) && Busy(r, 0)
  {
    var e := Start(0, "h");
    r := Step(INITIAL, e);
    trace := [e];
    assert trace[1..] == [] && Run(r, [], r);
  }

  /** Seven busy seconds, read at the start of the seventh: the window reports one byte less than it covers. */
  lemma CrowdedWindowIsReached() returns (trace: seq<Event>, r: Race)
    ensures Run(INITIAL, trace, r) && r.ordered && r.clock == 6000 && Crowded(r.log, 6000)
    ensures RecentBytes(r.traffic.buckets, ClientToUpstream, 6000) == WindowBytes(r.log, ClientToUpstream, 6000) - 1
  {
    hide Run, Inv, RecentBytes, TotalBytes, BytesAt, Step, Enabled, Seconds;
    trace, r := BusySeconds(7);
    InitialInv();
    RunInv(INITIAL, trace, r);
    SecondsAre(7);
    forall i | 0 <= i < 6
      ensures HasSecond(r.log, 6000 - 1000 * i)
    {
      assert r.log[6 - i].at == 6000 - 1000 * i;
      assert Align(r.log[6 - i].at) == 6000 - 1000 * i;
    }
    ReachedWindow(r);
    WindowRefinesLog(r.log, r.traffic.buckets, 6000, 6000, ClientToUpstream);
  }
}
