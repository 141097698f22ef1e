/** The six-bucket rate window and its meaning over the whole history of recorded bytes. */
module TrafficWindow {
  import opened Common

  const RATE_BUCKET_MS: nat := 1000
  const RATE_WINDOW_MS: nat := 5000
  const MAX_RATE_BUCKETS: nat := 6

  datatype Direction = ClientToUpstream | UpstreamToClient | OtherDirection

  datatype RateBucket = RateBucket(startMs: nat, upload: nat, download: nat)

  function Align(now: nat): nat {
    now - now % RATE_BUCKET_MS
  }

  function BucketBytes(b: RateBucket, dir: Direction): nat {
    match dir
    case ClientToUpstream => b.upload
    case UpstreamToClient => b.download
    case OtherDirection => 0
  }

  function Credit(b: RateBucket, dir: Direction, bytes: nat): RateBucket {
    match dir
    case ClientToUpstream => b.(upload := SatAdd(b.upload, bytes))
    case UpstreamToClient => b.(download := SatAdd(b.download, bytes))
    case OtherDirection => b
  }

  lemma AlignMonotone(a: nat, b: nat)
    requires a <= b
    ensures Align(a) <= Align(b) && Align(a) <= a < Align(a) + RATE_BUCKET_MS
  {
  }

  lemma WholeSeconds(a: nat, b: nat)
    requires a < b && a % RATE_BUCKET_MS == 0 && b % RATE_BUCKET_MS == 0
    ensures a + RATE_BUCKET_MS <= b
  {
  }

  /** The bucket queue after making sure its newest bucket is the one of `now`. */
  function Ensured(buckets: seq<RateBucket>, now: nat): (r: seq<RateBucket>)
    ensures r != [] && Last(r).startMs == Align(now)
  {
    KeepLast(
      buckets + if buckets == [] || Last(buckets).startMs != Align(now) then [RateBucket(Align(now), 0, 0)] else [],
      MAX_RATE_BUCKETS)
  }

  function Credited(buckets: seq<RateBucket>, now: nat, dir: Direction, bytes: nat): seq<RateBucket> {
    var b := Ensured(buckets, now);
    b[|b| - 1 := Credit(Last(b), dir, bytes)]
  }

  /** The bucket's second ended before the window opened. */
  predicate Stale(startMs: nat, now: nat) {
    SatAdd(startMs, RATE_BUCKET_MS) < SatSub(now, RATE_WINDOW_MS)
  }

  function Pruned(buckets: seq<RateBucket>, now: nat): seq<RateBucket> {
    if buckets != [] && Stale(buckets[0].startMs, now) then Pruned(buckets[1..], now) else buckets
  }

  function RecentBytes(buckets: seq<RateBucket>, dir: Direction, now: nat): nat {
    if buckets == [] then 0
    else
      var before := RecentBytes(buckets[..|buckets| - 1], dir, now);
      if Stale(Last(buckets).startMs, now) then before else SatAdd(before, BucketBytes(Last(buckets), dir))
  }

  function ElapsedMs(buckets: seq<RateBucket>, now: nat): (ms: nat)
    ensures RATE_BUCKET_MS <= ms <= RATE_WINDOW_MS
  {
    if buckets == [] then RATE_BUCKET_MS
    else
      var raw := SatAdd(SatSub(now, buckets[0].startMs), RATE_BUCKET_MS);
      if raw < RATE_BUCKET_MS then RATE_BUCKET_MS else if raw > RATE_WINDOW_MS then RATE_WINDOW_MS else raw
  }

  /** Whole bytes per second; the product saturates before the division. */
  function BytesPerSecond(bytes: nat, elapsedMs: nat): (r: nat)
    ensures elapsedMs > 0 ==> r * elapsedMs <= SatMul(bytes, 1000) < (r + 1) * elapsedMs
  {
    SatMul(bytes, 1000) / if elapsedMs == 0 then 1 else elapsedMs
  }

  // ---- The event log ----

  /** Bytes that were counted: for which flow, in which direction, at which clock reading. */
  datatype Sample = Sample(flow: nat, dir: Direction, bytes: nat, at: nat)

  ghost function SumWhere(log: seq<Sample>, p: Sample -> bool): nat {
    if log == [] then 0
    else SumWhere(log[..|log| - 1], p) + if p(Last(log)) then Last(log).bytes else 0
  }

  ghost function TotalBytes(log: seq<Sample>): nat {
    SumWhere(log, _ => true)
  }

  ghost function BytesAt(log: seq<Sample>, dir: Direction, startMs: nat): nat {
    SumWhere(log, (s: Sample) => s.dir == dir && Align(s.at) == startMs)
  }

  /** All bytes of one direction whose second ended at most five seconds before the clock reading. */
  ghost function WindowBytes(log: seq<Sample>, dir: Direction, now: nat): nat {
    SumWhere(log, (s: Sample) => s.dir == dir && now <= Align(s.at) + 6000)
  }

  ghost predicate HasSecond(log: seq<Sample>, startMs: nat) {
    exists i :: 0 <= i < |log| && Align(log[i].at) == startMs
  }

  lemma {:induction false} SumExt(log: seq<Sample>, p: Sample -> bool, q: Sample -> bool)
    requires forall i :: 0 <= i < |log| ==> p(log[i]) == q(log[i])
    ensures SumWhere(log, p) == SumWhere(log, q)
  {
    if log != [] {
      var front := log[..|log| - 1];
      assert forall i :: 0 <= i < |front| ==> front[i] == log[i];
      SumExt(front, p, q);
    }
  }

  lemma {:induction false} SumSplit(log: seq<Sample>, p: Sample -> bool, q: Sample -> bool)
    ensures SumWhere(log, p) ==
            SumWhere(log, (s: Sample) => p(s) && q(s)) + SumWhere(log, (s: Sample) => p(s) && !q(s))
  {
    if log != [] {
      SumSplit(log[..|log| - 1], p, q);
    }
  }

  lemma SumNone(log: seq<Sample>, p: Sample -> bool)
    requires forall i :: 0 <= i < |log| ==> !p(log[i])
    ensures SumWhere(log, p) == 0
  {
    if log != [] {
      var front := log[..|log| - 1];
      assert forall i :: 0 <= i < |front| ==> front[i] == log[i];
      SumNone(front, p);
    }
  }

  lemma {:induction false} SumBounded(log: seq<Sample>, p: Sample -> bool)
    ensures SumWhere(log, p) <= TotalBytes(log)
  {
    if log != [] {
      SumBounded(log[..|log| - 1], p);
    }
  }

  lemma SumAppend(log: seq<Sample>, s: Sample, p: Sample -> bool)
    ensures SumWhere(log + [s], p) == SumWhere(log, p) + if p(s) then s.bytes else 0
  {
    assert (log + [s])[..|log|] == log;
  }

  // ---- What the queue knows about the log ----

  ghost predicate InBuckets(buckets: seq<RateBucket>, startMs: nat) {
    exists i :: 0 <= i < |buckets| && buckets[i].startMs == startMs
  }

  ghost predicate Ordered(buckets: seq<RateBucket>) {
    forall i, j :: 0 <= i < j < |buckets| ==> buckets[i].startMs < buckets[j].startMs
  }

  /** Six later seconds with traffic: the reason a bucket was pushed out. */
  ghost predicate Newer(log: seq<Sample>, startMs: nat, later: seq<nat>) {
    && |later| == MAX_RATE_BUCKETS
    && startMs < later[0]
    && (forall i :: 0 <= i < 5 ==> later[i] < later[i + 1])
    && (forall i :: 0 <= i < 6 ==> HasSecond(log, later[i]))
  }

  ghost predicate Evicted(log: seq<Sample>, startMs: nat) {
    exists later :: Newer(log, startMs, later)
  }

  ghost predicate Explained(log: seq<Sample>, buckets: seq<RateBucket>, clock: nat, startMs: nat) {
    InBuckets(buckets, startMs) || Stale(startMs, clock) || Evicted(log, startMs)
  }

  /** Holds whenever clock readings never went back, up to the reading `clock`. */
  ghost predicate WindowInv(log: seq<Sample>, buckets: seq<RateBucket>, clock: nat) {
    && |buckets| <= MAX_RATE_BUCKETS
    && Ordered(buckets)
    && (forall i :: 0 <= i < |log| ==> log[i].at <= clock)
    && (forall i :: 0 <= i < |buckets| ==>
          var b := buckets[i];
          && HasSecond(log, b.startMs)
          && b.upload == BytesAt(log, ClientToUpstream, b.startMs)
          && b.download == BytesAt(log, UpstreamToClient, b.startMs))
    && (forall i :: 0 <= i < |log| ==> Explained(log, buckets, clock, Align(log[i].at)))
  }

  lemma SecondsAligned(log: seq<Sample>, startMs: nat)
    requires HasSecond(log, startMs)
    ensures startMs % RATE_BUCKET_MS == 0
  {
  }

  lemma SecondsInOrder(log: seq<Sample>, a: nat, b: nat)
    requires HasSecond(log, a) && HasSecond(log, b) && a < b
    ensures a + RATE_BUCKET_MS <= b
  {
    hide Align;
    SecondsAligned(log, a);
    SecondsAligned(log, b);
    WholeSeconds(a, b);
  }

  /** A second with traffic is no later than the clock. */
  lemma SecondsPassed(log: seq<Sample>, clock: nat, startMs: nat, now: nat)
    requires HasSecond(log, startMs) && clock <= now
    requires forall i :: 0 <= i < |log| ==> log[i].at <= clock
    ensures startMs <= Align(now)
  {
    hide Align;
    var k :| 0 <= k < |log| && Align(log[k].at) == startMs;
    AlignMonotone(log[k].at, now);
  }

  lemma BucketOrder(buckets: seq<RateBucket>, i: nat, j: nat)
    requires Ordered(buckets) && i < |buckets| && j < |buckets| && buckets[i].startMs < buckets[j].startMs
    ensures i < j
  {
  }

  /** Within 64 bits saturation never matters to the cutoff. */
  lemma StaleMeans(startMs: nat, now: nat)
    requires now <= MAX_U64
    ensures Stale(startMs, now) <==> startMs + 6000 < now
  {
  }

  lemma StaleMonotone(startMs: nat, clock: nat, now: nat)
    requires Stale(startMs, clock) && clock <= now
    ensures Stale(startMs, now)
  {
  }

  lemma EvictedMonotone(log: seq<Sample>, s: Sample, startMs: nat)
    requires Evicted(log, startMs)
    ensures Evicted(log + [s], startMs)
  {
    var later :| Newer(log, startMs, later);
    forall i | 0 <= i < 6
      ensures HasSecond(log + [s], later[i])
    {
      var k :| 0 <= k < |log| && Align(log[k].at) == later[i];
      assert (log + [s])[k] == log[k];
    }
    assert Newer(log + [s], startMs, later);
  }

  lemma {:induction false} PrunedParts(buckets: seq<RateBucket>, now: nat) returns (n: nat)
    ensures n <= |buckets| && Pruned(buckets, now) == buckets[n..]
    ensures forall i :: 0 <= i < n ==> Stale(buckets[i].startMs, now)
  {
    if buckets != [] && Stale(buckets[0].startMs, now) {
      var m := PrunedParts(buckets[1..], now);
      n := m + 1;
      assert buckets[1..][m..] == buckets[n..];
      forall i | 0 <= i < n ensures Stale(buckets[i].startMs, now) {
        if i > 0 {
          assert buckets[i] == buckets[1..][i - 1];
        }
      }
    } else {
      n := 0;
    }
  }

  /** Pruning, or just letting time pass, keeps the queue's knowledge. */
  lemma PruneInv(log: seq<Sample>, buckets: seq<RateBucket>, clock: nat, now: nat)
    requires WindowInv(log, buckets, clock) && clock <= now
    ensures WindowInv(log, Pruned(buckets, now), now)
  {
    var n := PrunedParts(buckets, now);
    var rest := Pruned(buckets, now);
    forall i | 0 <= i < |log|
      ensures Explained(log, rest, now, Align(log[i].at))
    {
      var st := Align(log[i].at);
      if Stale(st, clock) {
        StaleMonotone(st, clock, now);
      } else if InBuckets(buckets, st) {
        var k :| 0 <= k < |buckets| && buckets[k].startMs == st;
        if k >= n {
          assert rest[k - n].startMs == st;
        }
      }
    }
  }

  ghost predicate Countable(dir: Direction) {
    !dir.OtherDirection?
  }

  lemma CreditedShape(buckets: seq<RateBucket>, now: nat, dir: Direction, bytes: nat)
    ensures var r := Credited(buckets, now, dir, bytes);
            var added := buckets == [] || Last(buckets).startMs != Align(now);
            var drop := if added && |buckets| >= MAX_RATE_BUCKETS then |buckets| + 1 - MAX_RATE_BUCKETS else 0;
            |buckets| <= MAX_RATE_BUCKETS ==>
              && |r| == |buckets| + (if added then 1 else 0) - drop
              && (forall i :: 0 <= i < |r| - 1 ==> r[i] == buckets[i + drop])
              && Last(r) == Credit(if added then RateBucket(Align(now), 0, 0) else Last(buckets), dir, bytes)
  {
  }

  lemma CreditExact(log: seq<Sample>, b: RateBucket, s: Sample)
    requires Countable(s.dir) && TotalBytes(log + [s]) <= MAX_U64 && b.startMs == Align(s.at)
    requires b.upload == BytesAt(log, ClientToUpstream, b.startMs)
    requires b.download == BytesAt(log, UpstreamToClient, b.startMs)
    ensures var c := Credit(b, s.dir, s.bytes);
            && c.startMs == b.startMs
            && c.upload == BytesAt(log + [s], ClientToUpstream, b.startMs)
            && c.download == BytesAt(log + [s], UpstreamToClient, b.startMs)
  {
    forall dir: Direction
      ensures BytesAt(log + [s], dir, b.startMs) == BytesAt(log, dir, b.startMs) + (if s.dir == dir then s.bytes else 0)
      ensures BytesAt(log + [s], dir, b.startMs) <= MAX_U64
    {
      SumAppend(log, s, (x: Sample) => x.dir == dir && Align(x.at) == b.startMs);
      SumBounded(log + [s], (x: Sample) => x.dir == dir && Align(x.at) == b.startMs);
    }
  }

  lemma FreshSecond(log: seq<Sample>, startMs: nat, dir: Direction)
    requires !HasSecond(log, startMs)
    ensures BytesAt(log, dir, startMs) == 0
  {
    SumNone(log, (s: Sample) => s.dir == dir && Align(s.at) == startMs);
  }

  /** The newest second, when the queue does not end with it, has no bytes yet. */
  lemma NewSecond(log: seq<Sample>, buckets: seq<RateBucket>, clock: nat, now: nat)
    requires WindowInv(log, buckets, clock) && clock <= now <= MAX_U64
    requires buckets == [] || Last(buckets).startMs != Align(now)
    ensures !HasSecond(log, Align(now))
    ensures forall i :: 0 <= i < |buckets| ==> buckets[i].startMs < Align(now)
  {
    hide Align, BytesAt, Stale;
    var st := Align(now);
    forall i | 0 <= i < |buckets|
      ensures buckets[i].startMs <= st
    {
      SecondsPassed(log, clock, buckets[i].startMs, now);
    }
    assert !InBuckets(buckets, st);
    if HasSecond(log, st) {
      assert Explained(log, buckets, clock, st);
      NotStaleYet(clock, now);
      var later :| Newer(log, st, later);
      SecondsPassed(log, clock, later[0], now);
    }
  }

  lemma NotStaleYet(clock: nat, now: nat)
    requires clock <= now <= MAX_U64
    ensures !Stale(Align(now), clock)
  {
    AlignMonotone(clock, now);
  }

  lemma OldBucketKept(log: seq<Sample>, b: RateBucket, s: Sample)
    requires b.startMs != Align(s.at) && HasSecond(log, b.startMs)
    requires b.upload == BytesAt(log, ClientToUpstream, b.startMs)
    requires b.download == BytesAt(log, UpstreamToClient, b.startMs)
    ensures HasSecond(log + [s], b.startMs)
    ensures b.upload == BytesAt(log + [s], ClientToUpstream, b.startMs)
    ensures b.download == BytesAt(log + [s], UpstreamToClient, b.startMs)
  {
    var k :| 0 <= k < |log| && Align(log[k].at) == b.startMs;
    assert (log + [s])[k] == log[k];
    SumAppend(log, s, (x: Sample) => x.dir == ClientToUpstream && Align(x.at) == b.startMs);
    SumAppend(log, s, (x: Sample) => x.dir == UpstreamToClient && Align(x.at) == b.startMs);
  }

  /** The bucket pushed out by a seventh one has six newer seconds with traffic. */
  lemma EvictionWitness(log: seq<Sample>, buckets: seq<RateBucket>, clock: nat, s: Sample)
    requires WindowInv(log, buckets, clock) && clock <= s.at <= MAX_U64
    requires |buckets| == MAX_RATE_BUCKETS && Last(buckets).startMs != Align(s.at)
    ensures Evicted(log + [s], buckets[0].startMs)
  {
    hide Align, BytesAt, Stale, Evicted;
    NewSecond(log, buckets, clock, s.at);
    var later := [buckets[1].startMs, buckets[2].startMs, buckets[3].startMs, buckets[4].startMs,
                  buckets[5].startMs, Align(s.at)];
    forall i | 0 <= i < 6
      ensures HasSecond(log + [s], later[i])
    {
      if i < 5 {
        var k :| 0 <= k < |log| && Align(log[k].at) == buckets[i + 1].startMs;
        assert (log + [s])[k] == log[k];
      } else {
        assert (log + [s])[|log|] == s;
      }
    }
    EvictedBy(log + [s], buckets[0].startMs, later);
  }

  lemma EvictedBy(log: seq<Sample>, startMs: nat, later: seq<nat>)
    requires Newer(log, startMs, later)
    ensures Evicted(log, startMs)
  {
  }

  lemma CreditBuckets(log: seq<Sample>, buckets: seq<RateBucket>, clock: nat, s: Sample)
    requires WindowInv(log, buckets, clock) && clock <= s.at <= MAX_U64
    requires Countable(s.dir) && TotalBytes(log + [s]) <= MAX_U64
    ensures var r := Credited(buckets, s.at, s.dir, s.bytes);
            && Ordered(r)
            && forall i :: 0 <= i < |r| ==>
                 && HasSecond(log + [s], r[i].startMs)
                 && r[i].upload == BytesAt(log + [s], ClientToUpstream, r[i].startMs)
                 && r[i].download == BytesAt(log + [s], UpstreamToClient, r[i].startMs)
  {
    var r := Credited(buckets, s.at, s.dir, s.bytes);
    CreditedShape(buckets, s.at, s.dir, s.bytes);
    var added := buckets == [] || Last(buckets).startMs != Align(s.at);
    var base := if added then RateBucket(Align(s.at), 0, 0) else Last(buckets);
    if added {
      NewSecond(log, buckets, clock, s.at);
      FreshSecond(log, Align(s.at), ClientToUpstream);
      FreshSecond(log, Align(s.at), UpstreamToClient);
    }
    CreditExact(log, base, s);
    assert (log + [s])[|log|] == s;
    forall i | 0 <= i < |r|
      ensures && HasSecond(log + [s], r[i].startMs)
              && r[i].upload == BytesAt(log + [s], ClientToUpstream, r[i].startMs)
              && r[i].download == BytesAt(log + [s], UpstreamToClient, r[i].startMs)
    {
      if i < |r| - 1 {
        OldBucketKept(log, r[i], s);
      }
    }
  }

  /** Counting bytes at a clock reading that does not go back keeps the queue's knowledge. */
  lemma CreditInv(log: seq<Sample>, buckets: seq<RateBucket>, clock: nat, s: Sample)
    requires WindowInv(log, buckets, clock) && clock <= s.at <= MAX_U64
    requires Countable(s.dir) && TotalBytes(log + [s]) <= MAX_U64
    ensures WindowInv(log + [s], Credited(buckets, s.at, s.dir, s.bytes), s.at)
  {
    hide Align, BytesAt, Stale, Evicted, TotalBytes;
    var r := Credited(buckets, s.at, s.dir, s.bytes);
    var log' := log + [s];
    CreditedShape(buckets, s.at, s.dir, s.bytes);
    CreditBuckets(log, buckets, clock, s);
    forall i | 0 <= i < |log'|
      ensures Explained(log', r, s.at, Align(log'[i].at))
    {
      var st := Align(log'[i].at);
      if i == |log| || st == Align(s.at) {
        assert r[|r| - 1].startMs == st;
      } else {
        assert log'[i] == log[i] && Explained(log, buckets, clock, st);
        if Stale(st, clock) {
          StaleMonotone(st, clock, s.at);
        } else if Evicted(log, st) {
          EvictedMonotone(log, s, st);
        } else {
          var k :| 0 <= k < |buckets| && buckets[k].startMs == st;
          var drop := |buckets| + (if Last(buckets).startMs != Align(s.at) then 1 else 0) - |r|;
          if k < drop {
            EvictionWitness(log, buckets, clock, s);
          } else {
            assert r[k - drop].startMs == st;
          }
        }
      }
    }
  }

  // ---- The window equals the log ----

  ghost function LiveSum(log: seq<Sample>, buckets: seq<RateBucket>, dir: Direction, now: nat): nat {
    SumWhere(log, (s: Sample) => s.dir == dir && !Stale(Align(s.at), now) && InBuckets(buckets, Align(s.at)))
  }

  /** Adding up the live buckets adds up the samples of their seconds, without saturating. */
  lemma {:induction false} RecentIsLiveSum(log: seq<Sample>, buckets: seq<RateBucket>, dir: Direction, now: nat)
    requires Ordered(buckets) && TotalBytes(log) <= MAX_U64 && Countable(dir)
    requires forall i :: 0 <= i < |buckets| ==> BucketBytes(buckets[i], dir) == BytesAt(log, dir, buckets[i].startMs)
    ensures RecentBytes(buckets, dir, now) == LiveSum(log, buckets, dir, now)
  {
    if buckets == [] {
      SumNone(log, (s: Sample) => s.dir == dir && !Stale(Align(s.at), now) && InBuckets(buckets, Align(s.at)));
    } else {
      var front, b := buckets[..|buckets| - 1], Last(buckets);
      RecentIsLiveSum(log, front, dir, now);
      var p := (s: Sample) => s.dir == dir && !Stale(Align(s.at), now) && InBuckets(buckets, Align(s.at));
      var q := (s: Sample) => Align(s.at) == b.startMs;
      SumSplit(log, p, q);
      forall i | 0 <= i < |log|
        ensures InBuckets(buckets, Align(log[i].at)) <==> InBuckets(front, Align(log[i].at)) || q(log[i])
        ensures q(log[i]) ==> !InBuckets(front, Align(log[i].at))
      {
        BucketsSplit(buckets, Align(log[i].at));
      }
      SumExt(log, (s: Sample) => p(s) && !q(s),
             (s: Sample) => s.dir == dir && !Stale(Align(s.at), now) && InBuckets(front, Align(s.at)));
      if Stale(b.startMs, now) {
        SumNone(log, (s: Sample) => p(s) && q(s));
      } else {
        SumExt(log, (s: Sample) => p(s) && q(s), (s: Sample) => s.dir == dir && Align(s.at) == b.startMs);
      }
      SumBounded(log, p);
    }
  }

  lemma BucketsSplit(buckets: seq<RateBucket>, startMs: nat)
    requires buckets != [] && Ordered(buckets)
    ensures InBuckets(buckets, startMs) <==>
            InBuckets(buckets[..|buckets| - 1], startMs) || Last(buckets).startMs == startMs
    ensures Last(buckets).startMs == startMs ==> !InBuckets(buckets[..|buckets| - 1], startMs)
  {
    var front := buckets[..|buckets| - 1];
    if InBuckets(buckets, startMs) {
      var i :| 0 <= i < |buckets| && buckets[i].startMs == startMs;
      if i < |front| {
        assert front[i].startMs == startMs;
      }
    }
    if InBuckets(front, startMs) {
      var i :| 0 <= i < |front| && front[i].startMs == startMs;
      assert buckets[i].startMs == startMs;
    }
    assert buckets[|buckets| - 1] == Last(buckets);
  }

  /**
   * The six seconds up to `now`, all with traffic, on a whole second at least six seconds in: the
   * seventh bucket of the closed window has then been pushed out.
   */
  ghost predicate Crowded(log: seq<Sample>, now: nat) {
    && now % RATE_BUCKET_MS == 0 && now >= 6000
    && forall i :: 0 <= i < 6 ==> HasSecond(log, now - 1000 * i)
  }

  /** A sample of the window is missing from the queue exactly when its bucket was pushed out. */
  lemma MissingSecond(log: seq<Sample>, buckets: seq<RateBucket>, clock: nat, now: nat, startMs: nat)
    requires WindowInv(log, buckets, clock) && clock <= now <= MAX_U64
    requires HasSecond(log, startMs) && !Stale(startMs, now)
    ensures !InBuckets(buckets, startMs) <==> Crowded(log, now) && startMs == now - 6000
  {
    var k :| 0 <= k < |log| && Align(log[k].at) == startMs;
    assert Explained(log, buckets, clock, startMs);
    if !InBuckets(buckets, startMs) {
      if Stale(startMs, clock) {
        StaleMonotone(startMs, clock, now);
      }
      var later :| Newer(log, startMs, later);
      LaterIsCrowded(log, clock, now, startMs, later);
    } else if Crowded(log, now) && startMs == now - 6000 {
      SevenBuckets(log, buckets, clock, now);
    }
  }

  lemma LaterIsCrowded(log: seq<Sample>, clock: nat, now: nat, startMs: nat, later: seq<nat>)
    requires clock <= now <= MAX_U64 && forall i :: 0 <= i < |log| ==> log[i].at <= clock
    requires HasSecond(log, startMs) && !Stale(startMs, now) && Newer(log, startMs, later)
    ensures Crowded(log, now) && startMs == now - 6000
  {
    hide Align;
    SecondsInOrder(log, startMs, later[0]);
    SecondsInOrder(log, later[0], later[1]);
    SecondsInOrder(log, later[1], later[2]);
    SecondsInOrder(log, later[2], later[3]);
    SecondsInOrder(log, later[3], later[4]);
    SecondsInOrder(log, later[4], later[5]);
    SecondsPassed(log, clock, later[5], now);
    AlignMonotone(now, now);
    assert startMs + 1000 >= now - 5000;
    SecondsAligned(log, later[5]);
    assert later[5] == now;
    forall i | 0 <= i < 6
      ensures HasSecond(log, now - 1000 * i)
    {
      assert later[5 - i] == now - 1000 * i;
    }
  }

  lemma RecentSecondHasBucket(log: seq<Sample>, buckets: seq<RateBucket>, clock: nat, now: nat, startMs: nat)
    requires WindowInv(log, buckets, clock) && clock <= now <= MAX_U64
    requires HasSecond(log, startMs) && startMs + 5000 >= now >= startMs
    ensures InBuckets(buckets, startMs)
  {
    var k :| 0 <= k < |log| && Align(log[k].at) == startMs;
    assert Explained(log, buckets, clock, startMs);
    if Evicted(log, startMs) && !InBuckets(buckets, startMs) {
      var later :| Newer(log, startMs, later);
      LaterIsCrowded(log, clock, now, startMs, later);
    }
  }

  lemma SevenBuckets(log: seq<Sample>, buckets: seq<RateBucket>, clock: nat, now: nat)
    requires WindowInv(log, buckets, clock) && clock <= now <= MAX_U64 && Crowded(log, now)
    ensures !InBuckets(buckets, now - 6000)
  {
    hide Align, BytesAt, Stale;
    if InBuckets(buckets, now - 6000) {
      var at: nat :| at < |buckets| && buckets[at].startMs == now - 6000;
      var i := 5;
      while i >= 0
        invariant -1 <= i <= 5 && 5 - i <= at < |buckets| && buckets[at].startMs == now - 1000 * (i + 1)
      {
        RecentSecondHasBucket(log, buckets, clock, now, now - 1000 * i);
        var next: nat :| next < |buckets| && buckets[next].startMs == now - 1000 * i;
        BucketOrder(buckets, at, next);
        at, i := next, i - 1;
      }
    }
  }

  /**
   * Refinement of the event log, exactly: the queue's recent bytes are all bytes ever counted in the
   * window, less the one second pushed out when the window touches seven busy seconds; that can only
   * happen at a clock reading on a whole second.
   */
  lemma WindowRefinesLog(log: seq<Sample>, buckets: seq<RateBucket>, clock: nat, now: nat, dir: Direction)
    requires WindowInv(log, buckets, clock) && clock <= now <= MAX_U64
    requires TotalBytes(log) <= MAX_U64 && Countable(dir)
    ensures RecentBytes(buckets, dir, now) ==
            WindowBytes(log, dir, now) - if Crowded(log, now) then BytesAt(log, dir, now - 6000) else 0
    ensures now % RATE_BUCKET_MS != 0 ==> RecentBytes(buckets, dir, now) == WindowBytes(log, dir, now)
  {
    RecentIsLiveSum(log, buckets, dir, now);
    var p := (s: Sample) => s.dir == dir && now <= Align(s.at) + 6000;
    var q := (s: Sample) => InBuckets(buckets, Align(s.at));
    SumSplit(log, p, q);
    forall i | 0 <= i < |log|
      ensures !Stale(Align(log[i].at), now) <==> now <= Align(log[i].at) + 6000
    {
      StaleMeans(Align(log[i].at), now);
    }
    SumExt(log, (s: Sample) => p(s) && q(s),
           (s: Sample) => s.dir == dir && !Stale(Align(s.at), now) && InBuckets(buckets, Align(s.at)));
    forall i | 0 <= i < |log|
      ensures p(log[i]) && !q(log[i]) <==>
              log[i].dir == dir && Crowded(log, now) && Align(log[i].at) == now - 6000
    {
      if !Stale(Align(log[i].at), now) {
        MissingSecond(log, buckets, clock, now, Align(log[i].at));
      }
    }
    if Crowded(log, now) {
      SumExt(log, (s: Sample) => p(s) && !q(s), (s: Sample) => s.dir == dir && Align(s.at) == now - 6000);
    } else {
      SumNone(log, (s: Sample) => p(s) && !q(s));
    }
  }

  // ---- The divisor, read off the log ----

  /** A second with traffic that is still in the window and was not pushed out of the queue. */
  ghost predicate Seen(log: seq<Sample>, now: nat, startMs: nat) {
    HasSecond(log, startMs) && now <= startMs + 6000 && !(Crowded(log, now) && startMs == now - 6000)
  }

  /**
   * The time that the reported rates refer to: from the start of the oldest second seen to the end of the
   * current one, five seconds at most; one second if there is none.
   */
  ghost predicate Covers(log: seq<Sample>, now: nat, oldest: Option<nat>, elapsed: nat) {
    match oldest
    case Some(start) =>
      && Seen(log, now, start) && (forall t :: Seen(log, now, t) ==> start <= t)
      && start <= now && elapsed == Min(now - start + 1000, 5000)
    case None => (forall t :: !Seen(log, now, t)) && elapsed == 1000
  }

  /** A pruned queue holds exactly the seconds seen, oldest first, and divides by the time they cover. */
  lemma DivisorCovers(log: seq<Sample>, buckets: seq<RateBucket>, clock: nat, now: nat) returns (oldest: Option<nat>)
    requires WindowInv(log, buckets, clock) && clock <= now <= MAX_U64
    requires buckets != [] ==> !Stale(buckets[0].startMs, now)
    ensures Covers(log, now, oldest, ElapsedMs(buckets, now))
  {
    hide Crowded, Align;
    forall t | Seen(log, now, t)
      ensures InBuckets(buckets, t)
    {
      StaleMeans(t, now);
      MissingSecond(log, buckets, clock, now, t);
    }
    if buckets == [] {
      oldest := None;
    } else {
      var start := buckets[0].startMs;
      oldest := Some(start);
      StaleMeans(start, now);
      MissingSecond(log, buckets, clock, now, start);
      SecondsPassed(log, clock, start, now);
      AlignMonotone(now, now);
    }
  }

  lemma {:induction false} PrunedFront(buckets: seq<RateBucket>, now: nat)
    ensures Pruned(buckets, now) != [] ==> !Stale(Pruned(buckets, now)[0].startMs, now)
  {
    if buckets != [] && Stale(buckets[0].startMs, now) {
      PrunedFront(buckets[1..], now);
    }
  }
}
