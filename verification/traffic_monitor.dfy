/** The live traffic recorder: its state as a value, and the shared object that keeps it in place. */
module TrafficMonitoring {
  import opened Common
  import opened TrafficWindow

  datatype ActiveFlow = ActiveFlow(host: string, upload: nat, download: nat)

  datatype TrafficState = TrafficState(
    flows: map<nat, ActiveFlow>, buckets: seq<RateBucket>, totalUpload: nat, totalDownload: nat)

  const EMPTY: TrafficState := TrafficState(map[], [], 0, 0)

  function FlowBytes(f: ActiveFlow, dir: Direction): nat {
    match dir
    case ClientToUpstream => f.upload
    case UpstreamToClient => f.download
    case OtherDirection => 0
  }

  function Total(s: TrafficState, dir: Direction): nat {
    match dir
    case ClientToUpstream => s.totalUpload
    case UpstreamToClient => s.totalDownload
    case OtherDirection => 0
  }

  function Started(s: TrafficState, id: nat, host: string): TrafficState {
    s.(flows := s.flows[id := ActiveFlow(host, 0, 0)])
  }

  /** Bytes for a flow that is not active, or in no known direction, are dropped. */
  function Recorded(s: TrafficState, id: nat, dir: Direction, bytes: nat, now: nat): TrafficState {
    if id !in s.flows then s
    else
      var f := s.flows[id];
      match dir
      case ClientToUpstream =>
        s.(flows := s.flows[id := f.(upload := SatAdd(f.upload, bytes))],
           totalUpload := SatAdd(s.totalUpload, bytes), buckets := Credited(s.buckets, now, dir, bytes))
      case UpstreamToClient =>
        s.(flows := s.flows[id := f.(download := SatAdd(f.download, bytes))],
           totalDownload := SatAdd(s.totalDownload, bytes), buckets := Credited(s.buckets, now, dir, bytes))
      case OtherDirection => s
  }

  function Finished(s: TrafficState, id: nat): TrafficState {
    s.(flows := s.flows - {id})
  }

  /** What a live snapshot reports about rates and totals. */
  datatype Rates = Rates(uploadPerSecond: nat, downloadPerSecond: nat, totalUpload: nat, totalDownload: nat)

  function RatesOf(s: TrafficState, now: nat): Rates {
    var elapsed := ElapsedMs(s.buckets, now);
    Rates(BytesPerSecond(RecentBytes(s.buckets, ClientToUpstream, now), elapsed),
          BytesPerSecond(RecentBytes(s.buckets, UpstreamToClient, now), elapsed),
          s.totalUpload, s.totalDownload)
  }

  /** Milliseconds from the start of the oldest bucket to the end of the current second, one to five seconds. */
  predicate RefersTo(buckets: seq<RateBucket>, now: nat, elapsed: nat) {
    if buckets == [] || now < buckets[0].startMs then elapsed == 1000
    else elapsed == Min(now - buckets[0].startMs + 1000, 5000)
  }

  /** The whole number of units per second for an amount counted over some milliseconds. */
  predicate PerSecond(rate: nat, amount: nat, elapsed: nat) {
    rate * elapsed <= SatMul(amount, 1000) < (rate + 1) * elapsed
  }

  class TrafficMonitor {
    var flows: map<nat, ActiveFlow>
    var buckets: seq<RateBucket>
    var totalUpload: nat
    var totalDownload: nat

    function View(): TrafficState
      reads this
    {
      TrafficState(flows, buckets, totalUpload, totalDownload)
    }

    constructor ()
      ensures View() == EMPTY
    {
      flows, buckets, totalUpload, totalDownload := map[], [], 0, 0;
    }

    method StartFlow(id: nat, host: string)
      modifies this`flows
      ensures View() == Started(old(View()), id, host) && flows == old(flows)[id := ActiveFlow(host, 0, 0)]
    {
      flows := flows[id := ActiveFlow(host, 0, 0)];
    }

    /** Makes the newest bucket the one of `now`, dropping the oldest beyond the limit. */
    method EnsureBucket(now: nat)
      modifies this`buckets
      ensures buckets == Ensured(old(buckets), now)
    {
      hide Align;
      var start := Align(now);
      if buckets == [] || Last(buckets).startMs != start {
        buckets := buckets + [RateBucket(start, 0, 0)];
      }
      ghost var all := buckets;
      while |buckets| > MAX_RATE_BUCKETS
        invariant |buckets| <= |all| && buckets == all[|all| - |buckets|..]
        invariant |buckets| == |all| || |buckets| >= MAX_RATE_BUCKETS
      {
        buckets := buckets[1..];
      }
      assert buckets == KeepLast(all, MAX_RATE_BUCKETS);
    }

    method RecordBytes(id: nat, dir: Direction, bytes: nat, now: nat)
      modifies this
      ensures View() == Recorded(old(View()), id, dir, bytes, now)
    {
      if id !in flows {
        return;
      }
      match dir
      case ClientToUpstream =>
        flows := flows[id := flows[id].(upload := SatAdd(flows[id].upload, bytes))];
        totalUpload := SatAdd(totalUpload, bytes);
        EnsureBucket(now);
        buckets := buckets[|buckets| - 1 := Last(buckets).(upload := SatAdd(Last(buckets).upload, bytes))];
      case UpstreamToClient =>
        flows := flows[id := flows[id].(download := SatAdd(flows[id].download, bytes))];
        totalDownload := SatAdd(totalDownload, bytes);
        EnsureBucket(now);
        buckets := buckets[|buckets| - 1 := Last(buckets).(download := SatAdd(Last(buckets).download, bytes))];
      case OtherDirection =>
    }

    method FinishFlow(id: nat)
      modifies this`flows
      ensures View() == Finished(old(View()), id) && flows == old(flows) - {id}
    {
      flows := flows - {id};
    }

    method PruneBuckets(now: nat)
      modifies this`buckets
      ensures buckets == Pruned(old(buckets), now)
    {
      while buckets != [] && SatAdd(buckets[0].startMs, RATE_BUCKET_MS) < SatSub(now, RATE_WINDOW_MS)
        invariant Pruned(buckets, now) == Pruned(old(buckets), now)
        decreases |buckets|
      {
        buckets := buckets[1..];
      }
    }

    /** Adds up both directions of the buckets that are still in the window. */
    method SumRecent(now: nat) returns (upload: nat, download: nat)
      ensures upload == RecentBytes(buckets, ClientToUpstream, now)
      ensures download == RecentBytes(buckets, UpstreamToClient, now)
    {
      upload, download := 0, 0;
      for i := 0 to |buckets|
        invariant upload == RecentBytes(buckets[..i], ClientToUpstream, now)
        invariant download == RecentBytes(buckets[..i], UpstreamToClient, now)
      {
        assert buckets[..i + 1][..i] == buckets[..i];
        if SatAdd(buckets[i].startMs, RATE_BUCKET_MS) >= SatSub(now, RATE_WINDOW_MS) {
          upload, download := SatAdd(upload, buckets[i].upload), SatAdd(download, buckets[i].download);
        }
      }
      assert buckets[..|buckets|] == buckets;
    }

    method Snapshot(now: nat) returns (r: Rates)
      modifies this`buckets
      ensures buckets == Pruned(old(buckets), now) && r == RatesOf(View(), now)
      ensures r.totalUpload == totalUpload && r.totalDownload == totalDownload
      ensures exists elapsed | RefersTo(buckets, now, elapsed) ::
                && PerSecond(r.uploadPerSecond, RecentBytes(buckets, ClientToUpstream, now), elapsed)
                && PerSecond(r.downloadPerSecond, RecentBytes(buckets, UpstreamToClient, now), elapsed)
    {
      hide RecentBytes, BytesPerSecond;
      PruneBuckets(now);
      var upload, download := SumRecent(now);
      var elapsed := ElapsedMs(buckets, now);
      assert RefersTo(buckets, now, elapsed);
      r := Rates(BytesPerSecond(upload, elapsed), BytesPerSecond(download, elapsed), totalUpload, totalDownload);
    }
  }

  /** All clones of one flow's handle share this flag. */
  class TrafficFlowHandle {
    const id: nat
    const monitor: TrafficMonitor
    var finished: bool

    constructor (id: nat, monitor: TrafficMonitor)
      ensures this.id == id && this.monitor == monitor && !finished
    {
      this.id, this.monitor, finished := id, monitor, false;
    }

    /** Only the first call removes the flow. */
    method Finish()
      modifies this, monitor`flows
      ensures finished
      ensures monitor.View() == if old(finished) then old(monitor.View()) else Finished(old(monitor.View()), id)
    {
      var was := finished;
      finished := true;
      if !was {
        monitor.FinishFlow(id);
      }
    }

    method RecordBytes(dir: Direction, bytes: nat, now: nat)
      modifies monitor
      ensures monitor.View() ==
              if finished then old(monitor.View()) else Recorded(old(monitor.View()), id, dir, bytes, now)
    {
      if !finished {
        monitor.RecordBytes(id, dir, bytes, now);
      }
    }
  }
}
