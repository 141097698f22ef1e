/** Flow diagnostics: how a finished flow becomes a record, and what the shared recorder keeps of it. */
module FlowDiagnosing {
  import opened Common
  import opened Text
  import opened CappedCounts

  const MAX_RECENT_FLOWS: nat := 100
  const MAX_RECENT_ACCEPT_ERRORS: nat := 25
  const UNKNOWN_KEY: string := "<unknown>"
  const FAKE_IP: string := "fake_ip_candidate"

  datatype Decision = Intercepted | Passthrough | Failed | Unknown

  function DecisionName(d: Decision): string {
    match d
    case Intercepted => "intercepted"
    case Passthrough => "passthrough"
    case Failed => "failed"
    case Unknown => "unknown"
  }

  /** A destination's printed form and, for a known IPv4 address, its first two octets. */
  datatype Destination = Destination(printed: string, ipv4Prefix: Option<(nat, nat)>)

  datatype SourceProcess = SourceProcess(
    applicationId: Option<string>, name: Option<string>, executableFileName: Option<string>)

  datatype Context = Context(
    ingressSource: string, destination: Destination, destinationHost: Option<string>, source: Option<SourceProcess>)

  datatype Outcome =
    | InterceptedFlow(serverName: Option<string>, hostHeader: Option<string>)
    | PassthroughFlow(serverName: Option<string>)
    | OtherFlow

  /** Fields of a flow record that feed the counters; the rest are copied labels. */
  datatype FlowRecord = FlowRecord(
    ingressSource: string, decision: Decision, missReason: Option<string>, host: string,
    processLabel: string, bundleId: Option<string>, fakeIp: Option<string>)

  function OrElse<T>(a: Option<T>, b: Option<T>): Option<T> {
    if a.Some? then a else b
  }

  function GetOr<T>(a: Option<T>, otherwise: T): T {
    if a.Some? then a.value else otherwise
  }

  function NormalizedOptional(value: Option<string>): Option<string> {
    if value.Some? && Trim(value.value) != [] then Some(Trim(value.value)) else None
  }

  /** 198.18.0.0/15, the range commonly used for synthetic proxy addresses. */
  function FakeIpOf(d: Destination): Option<string> {
    if d.ipv4Prefix.Some? && d.ipv4Prefix.value.0 == 198 && d.ipv4Prefix.value.1 in {18, 19} then Some(FAKE_IP)
    else None
  }

  function ProcessLabel(source: Option<SourceProcess>): string {
    match source
    case None => UNKNOWN_KEY
    case Some(p) => GetOr(OrElse(p.applicationId, OrElse(p.name, p.executableFileName)), UNKNOWN_KEY)
  }

  function BundleId(source: Option<SourceProcess>): Option<string> {
    if source.Some? then source.value.applicationId else None
  }

  function FromOutcome(c: Context, o: Outcome): FlowRecord {
    var platform := NormalizedOptional(c.destinationHost);
    var (decision, reason, named) := match o
      case InterceptedFlow(server, header) => (Intercepted, None, OrElse(header, server))
      case PassthroughFlow(server) => (Passthrough, Some("tls_decryption_policy_passthrough"), server)
      case OtherFlow => (Unknown, Some("unknown_outcome"), None);
    FlowRecord(c.ingressSource, decision, reason, GetOr(OrElse(named, platform), c.destination.printed),
               ProcessLabel(c.source), BundleId(c.source), FakeIpOf(c.destination))
  }

  function FromFailure(c: Context, reason: string): FlowRecord {
    FlowRecord(c.ingressSource, Failed, Some(reason),
               GetOr(NormalizedOptional(c.destinationHost), c.destination.printed),
               ProcessLabel(c.source), BundleId(c.source), FakeIpOf(c.destination))
  }

  function RecordOf(c: Context, result: Result<Outcome, string>): (r: FlowRecord)
    ensures r.missReason.None? <==> result.Ok? && result.value.InterceptedFlow?
    ensures r.decision.Intercepted? <==> r.missReason.None?
    ensures r.fakeIp.Some? ==> r.fakeIp.value == FAKE_IP
  {
    match result
    case Ok(o) => FromOutcome(c, o)
    case Err(reason) => FromFailure(c, reason)
  }

  /** The platform's name of the destination if it has one that is not blank, else its printed address. */
  predicate NamedByPlatform(c: Context, host: string) {
    match c.destinationHost
    case None => host == c.destination.printed
    case Some(name) => if Blank(name) then host == c.destination.printed else host == Trim(name)
  }

  /**
   * The record field by field. The host is the Host header of an intercepted request, else the TLS server
   * name, else the platform's name, else the printed address; decision and miss reason follow the result;
   * the process is labelled by its application, else its name, else its executable; only an application
   * is a bundle; and exactly 198.18.0.0/15 is marked as synthetic.
   */
  lemma RecordFields(c: Context, result: Result<Outcome, string>)
    ensures var r := RecordOf(c, result);
            match result
            case Ok(InterceptedFlow(_, _)) => r.decision == Intercepted && r.missReason == None
            case Ok(PassthroughFlow(_)) =>
              r.decision == Passthrough && r.missReason == Some("tls_decryption_policy_passthrough")
            case Ok(OtherFlow) => r.decision == Unknown && r.missReason == Some("unknown_outcome")
            case Err(reason) => r.decision == Failed && r.missReason == Some(reason)
    ensures var host := RecordOf(c, result).host;
            match result
            case Ok(InterceptedFlow(_, Some(header))) => host == header
            case Ok(InterceptedFlow(Some(server), None)) => host == server
            case Ok(PassthroughFlow(Some(server))) => host == server
            case _ => NamedByPlatform(c, host)
    ensures var r := RecordOf(c, result);
            match c.source
            case Some(SourceProcess(Some(id), _, _)) => r.processLabel == id && r.bundleId == Some(id)
            case Some(SourceProcess(None, Some(name), _)) => r.processLabel == name && r.bundleId == None
            case Some(SourceProcess(None, None, Some(file))) => r.processLabel == file && r.bundleId == None
            case _ => r.processLabel == "<unknown>" && r.bundleId == None
    ensures var r := RecordOf(c, result);
            && r.ingressSource == c.ingressSource
            && (r.fakeIp.Some? <==> c.destination.ipv4Prefix in {Some((198, 18)), Some((198, 19))})
            && (r.fakeIp.Some? ==> r.fakeIp.value == "fake_ip_candidate")
  {
    hide Trim, Blank;
    if c.destinationHost.Some? {
      var lead, tail := TrimParts(c.destinationHost.value);
    }
  }

  function DestinationClass(r: FlowRecord): string {
    GetOr(r.fakeIp, "ordinary")
  }

  datatype Totals = Totals(accepted: nat, completed: nat, inFlight: nat, acceptErrors: nat)

  datatype Aggregates = Aggregates(
    decision: Counts, ingress: Counts, host: Counts, process: Counts, bundleId: Counts,
    missReason: Counts, destinationClass: Counts, fakeIpHost: Counts, fakeIpProcess: Counts)

  datatype RecentLists = RecentLists(flows: seq<FlowRecord>, observations: seq<string>, acceptErrors: seq<string>)

  /** The recorder's state, grouped as in its snapshot. */
  datatype Diagnostics = Diagnostics(totals: Totals, counts: Aggregates, recent: RecentLists)

  const EMPTY: Diagnostics :=
    Diagnostics(Totals(0, 0, 0, 0), Aggregates(map[], map[], map[], map[], map[], map[], map[], map[], map[]),
                RecentLists([], [], []))

  function IncrementIf(m: Counts, key: Option<string>): Counts {
    if key.Some? then Increment(m, key.value) else m
  }

  function FakeKey(r: FlowRecord, key: string): Option<string> {
    if r.fakeIp.Some? then Some(key) else None
  }

  function Counted(a: Aggregates, r: FlowRecord): Aggregates {
    Aggregates(
      Increment(a.decision, DecisionName(r.decision)),
      Increment(a.ingress, r.ingressSource),
      Increment(a.host, r.host),
      Increment(a.process, r.processLabel),
      IncrementIf(a.bundleId, r.bundleId),
      IncrementIf(a.missReason, r.missReason),
      Increment(a.destinationClass, DestinationClass(r)),
      IncrementIf(a.fakeIpHost, FakeKey(r, r.host)),
      IncrementIf(a.fakeIpProcess, FakeKey(r, r.processLabel)))
  }

  function Accepted(d: Diagnostics): Diagnostics {
    d.(totals := d.totals.(accepted := SatAdd(d.totals.accepted, 1), inFlight := SatAdd(d.totals.inFlight, 1)))
  }

  function AcceptFailed(d: Diagnostics, error: string): Diagnostics {
    d.(totals := d.totals.(acceptErrors := SatAdd(d.totals.acceptErrors, 1)),
       recent := d.recent.(acceptErrors := PushBounded(d.recent.acceptErrors, error, MAX_RECENT_ACCEPT_ERRORS)))
  }

  function FailureObserved(d: Diagnostics, observation: string): Diagnostics {
    d.(recent := Observed(d.recent, observation))
  }

  function Observed(r: RecentLists, observation: string): RecentLists {
    r.(observations := PushBounded(r.observations, observation, MAX_RECENT_FLOWS))
  }

  function CompletedTotals(t: Totals): Totals {
    t.(completed := SatAdd(t.completed, 1), inFlight := SatSub(t.inFlight, 1))
  }

  function Completed(d: Diagnostics, r: FlowRecord, observation: string): Diagnostics {
    Diagnostics(CompletedTotals(d.totals), Counted(d.counts, r),
                Completing(d.recent, r, observation))
  }

  function Completing(l: RecentLists, r: FlowRecord, observation: string): RecentLists {
    Observed(l.(flows := PushBounded(l.flows, r, MAX_RECENT_FLOWS)), observation)
  }

  class FlowDiagnostics {
    var acceptedTotal: nat
    var completedTotal: nat
    var inFlight: nat
    var acceptErrorsTotal: nat
    var byDecision: Counts
    var byIngress: Counts
    var byHost: Counts
    var byProcess: Counts
    var byBundleId: Counts
    var byMissReason: Counts
    var byDestinationClass: Counts
    var byFakeIpHost: Counts
    var byFakeIpProcess: Counts
    var recentFlows: seq<FlowRecord>
    var recentObservations: seq<string>
    var recentAcceptErrors: seq<string>

    function Counters(): Totals
      reads this`acceptedTotal, this`completedTotal, this`inFlight, this`acceptErrorsTotal
    {
      Totals(acceptedTotal, completedTotal, inFlight, acceptErrorsTotal)
    }

    function Maps(): Aggregates
      reads this`byDecision, this`byIngress, this`byHost, this`byProcess, this`byBundleId, this`byMissReason
      reads this`byDestinationClass, this`byFakeIpHost, this`byFakeIpProcess
    {
      Aggregates(byDecision, byIngress, byHost, byProcess, byBundleId, byMissReason, byDestinationClass,
                 byFakeIpHost, byFakeIpProcess)
    }

    function Lists(): RecentLists
      reads this`recentFlows, this`recentObservations, this`recentAcceptErrors
    {
      RecentLists(recentFlows, recentObservations, recentAcceptErrors)
    }

    function View(): Diagnostics
      reads this
    {
      Diagnostics(Counters(), Maps(), Lists())
    }

    constructor ()
      ensures View() == EMPTY
    {
      acceptedTotal, completedTotal, inFlight, acceptErrorsTotal := 0, 0, 0, 0;
      byDecision, byIngress, byHost, byProcess, byBundleId := map[], map[], map[], map[], map[];
      byMissReason, byDestinationClass, byFakeIpHost, byFakeIpProcess := map[], map[], map[], map[];
      recentFlows, recentObservations, recentAcceptErrors := [], [], [];
    }

    method RecordAccepted()
      modifies this
      ensures View() == Accepted(old(View()))
    {
      acceptedTotal := SatAdd(acceptedTotal, 1);
      inFlight := SatAdd(inFlight, 1);
    }

    method RecordAcceptError(error: string)
      modifies this
      ensures View() == AcceptFailed(old(View()), error)
    {
      hide PushBounded;
      acceptErrorsTotal := SatAdd(acceptErrorsTotal, 1);
      recentAcceptErrors := PushBack(recentAcceptErrors, error, MAX_RECENT_ACCEPT_ERRORS);
    }

    /**
     * A preparation failure takes the recorder's lock once for the error and, if there is an
     * observation, once more for that; `meanwhile` is what others record in between.
     */
    method RecordIngressError(error: string, observation: Option<string>, meanwhile: seq<Event>)
      modifies this
      ensures View() == ApplyAll(old(View()), [AcceptError(error)] + Between(observation, meanwhile))
    {
      hide Accepted, AcceptFailed, FailureObserved, Completed, RecordOf, PushBounded;
      ghost var before := View();
      RecordAcceptError(error);
      ApplyOne(before, AcceptError(error));
      ghost var first := View();
      ApplyConcat(before, [AcceptError(error)], Between(observation, meanwhile));
      if observation.Some? {
        for i := 0 to |meanwhile|
          invariant View() == ApplyAll(first, meanwhile[..i])
        {
          assert meanwhile[..i + 1][..i] == meanwhile[..i];
          Perform(meanwhile[i]);
        }
        assert meanwhile[..|meanwhile|] == meanwhile;
        ghost var second := View();
        RecordFailureObservation(observation.value);
        ApplyOne(second, IngressObserved(observation.value));
        ApplyConcat(first, meanwhile, [IngressObserved(observation.value)]);
      }
    }

    method RecordFailureObservation(observation: string)
      modifies this
      ensures View() == Apply(old(View()), IngressObserved(observation))
    {
      hide PushBounded;
      recentObservations := PushBack(recentObservations, observation, MAX_RECENT_FLOWS);
    }

    /** One lock-protected action of the recorder. */
    method Perform(e: Event)
      modifies this
      ensures View() == Apply(old(View()), e)
    {
      hide Accepted, AcceptFailed, Completed, RecordOf, PushBounded;
      match e
      case FlowAccepted => RecordAccepted();
      case AcceptError(error) => RecordAcceptError(error);
      case IngressObserved(observation) => RecordFailureObservation(observation);
      case FlowResult(c, result, observation) => RecordResult(c, result, observation);
    }

    method RecordResult(c: Context, result: Result<Outcome, string>, observation: string)
      modifies this
      ensures View() == Completed(old(View()), RecordOf(c, result), observation)
    {
      hide Completed;
      RecordCompleted(RecordOf(c, result), observation);
    }

    method RecordCompleted(r: FlowRecord, observation: string)
      modifies this
      ensures View() == Completed(old(View()), r, observation)
    {
      hide Counted, CompletedTotals, Completing, Counters, Maps, Lists;
      CountCompleted();
      CountLabels(r);
      KeepRecent(r, observation);
    }

    method CountCompleted()
      modifies this`completedTotal, this`inFlight
      ensures Counters() == CompletedTotals(old(Counters()))
    {
      completedTotal := SatAdd(completedTotal, 1);
      inFlight := SatSub(inFlight, 1);
    }

    method KeepRecent(r: FlowRecord, observation: string)
      modifies this`recentFlows, this`recentObservations
      ensures Lists() == Completing(old(Lists()), r, observation)
    {
      hide PushBounded;
      recentFlows := PushBack(recentFlows, r, MAX_RECENT_FLOWS);
      recentObservations := PushBack(recentObservations, observation, MAX_RECENT_FLOWS);
    }

    method CountLabels(r: FlowRecord)
      modifies this`byDecision, this`byIngress, this`byHost, this`byProcess, this`byBundleId, this`byMissReason,
        this`byDestinationClass, this`byFakeIpHost, this`byFakeIpProcess
      ensures Maps() == Counted(old(Maps()), r)
    {
      hide Increment, DecisionName, DestinationClass;
      byDecision := Increment(byDecision, DecisionName(r.decision));
      byIngress := Increment(byIngress, r.ingressSource);
      byHost := Increment(byHost, r.host);
      byProcess := Increment(byProcess, r.processLabel);
      if r.bundleId.Some? {
        byBundleId := Increment(byBundleId, r.bundleId.value);
      }
      if r.missReason.Some? {
        byMissReason := Increment(byMissReason, r.missReason.value);
      }
      CountDestination(r);
    }

    method CountDestination(r: FlowRecord)
      modifies this`byDestinationClass, this`byFakeIpHost, this`byFakeIpProcess
      ensures byDestinationClass == Increment(old(byDestinationClass), DestinationClass(r))
      ensures byFakeIpHost == IncrementIf(old(byFakeIpHost), FakeKey(r, r.host))
      ensures byFakeIpProcess == IncrementIf(old(byFakeIpProcess), FakeKey(r, r.processLabel))
    {
      hide Increment;
      byDestinationClass := Increment(byDestinationClass, if r.fakeIp.Some? then r.fakeIp.value else "ordinary");
      if r.fakeIp.Some? {
        byFakeIpHost := Increment(byFakeIpHost, r.host);
        byFakeIpProcess := Increment(byFakeIpProcess, r.processLabel);
      }
    }

    /** Appends and then pops the front until the limit holds. */
    static method PushBack<T>(records: seq<T>, record: T, limit: nat) returns (r: seq<T>)
      ensures r == PushBounded(records, record, limit)
    {
      r := records + [record];
      ghost var all := r;
      while |r| > limit
        invariant |r| <= |all| && r == all[|all| - |r|..] && (|r| == |all| || |r| >= limit)
      {
        r := r[1..];
      }
    }
  }

  // ---- Whole runs of the recorder ----

  datatype Event =
    | FlowAccepted
    | AcceptError(error: string)
    | IngressObserved(observation: string)
    | FlowResult(context: Context, result: Result<Outcome, string>, observation: string)

  function Apply(d: Diagnostics, e: Event): Diagnostics {
    match e
    case FlowAccepted => Accepted(d)
    case AcceptError(error) => AcceptFailed(d, error)
    case IngressObserved(observation) => FailureObserved(d, observation)
    case FlowResult(c, result, observation) => Completed(d, RecordOf(c, result), observation)
  }

  function ApplyAll(d: Diagnostics, events: seq<Event>): Diagnostics {
    if events == [] then d else Apply(ApplyAll(d, events[..|events| - 1]), Last(events))
  }

  /** What is recorded after the error of a failed preparation, up to its own observation. */
  function Between(observation: Option<string>, meanwhile: seq<Event>): seq<Event> {
    if observation.Some? then meanwhile + [IngressObserved(observation.value)] else []
  }

  lemma ApplyOne(d: Diagnostics, e: Event)
    ensures ApplyAll(d, [e]) == Apply(d, e)
  {
    hide Apply;
    assert [e][..0] == [];
  }

  lemma {:induction false} ApplyConcat(d: Diagnostics, a: seq<Event>, b: seq<Event>)
    ensures ApplyAll(d, a + b) == ApplyAll(ApplyAll(d, a), b)
  {
    hide Apply;
    if b == [] {
      assert a + b == a;
    } else {
      ApplyConcat(d, a, b[..|b| - 1]);
      assert (a + b)[..|a + b| - 1] == a + b[..|b| - 1];
    }
  }

  function After(events: seq<Event>): Diagnostics {
    if events == [] then EMPTY else Apply(After(events[..|events| - 1]), Last(events))
  }

  /** Records of the completed flows, oldest first. */
  function Records(events: seq<Event>): seq<FlowRecord> {
    if events == [] then []
    else Records(events[..|events| - 1]) +
         if Last(events).FlowResult? then [RecordOf(Last(events).context, Last(events).result)] else []
  }

  /** Keys that a list of records contributes to one counter map. */
  function KeysOf(rs: seq<FlowRecord>, key: FlowRecord -> Option<string>): seq<string> {
    if rs == [] then []
    else KeysOf(rs[..|rs| - 1], key) + if key(Last(rs)).Some? then [key(Last(rs)).value] else []
  }

  const DECISION_KEY := (r: FlowRecord) => Some(DecisionName(r.decision))
  const INGRESS_KEY := (r: FlowRecord) => Some(r.ingressSource)
  const HOST_KEY := (r: FlowRecord) => Some(r.host)
  const PROCESS_KEY := (r: FlowRecord) => Some(r.processLabel)
  const BUNDLE_KEY := (r: FlowRecord) => r.bundleId
  const MISS_KEY := (r: FlowRecord) => r.missReason
  const CLASS_KEY := (r: FlowRecord) => Some(DestinationClass(r))
  const FAKE_HOST_KEY := (r: FlowRecord) => FakeKey(r, r.host)
  const FAKE_PROCESS_KEY := (r: FlowRecord) => FakeKey(r, r.processLabel)

  lemma TallyKeysAppend(rs: seq<FlowRecord>, r: FlowRecord, key: FlowRecord -> Option<string>)
    ensures Tally(KeysOf(rs + [r], key)) == IncrementIf(Tally(KeysOf(rs, key)), key(r))
  {
    assert (rs + [r])[..|rs|] == rs;
    if key(r).Some? {
      var keys := KeysOf(rs, key);
      assert (keys + [key(r).value])[..|keys|] == keys;
    } else {
      assert KeysOf(rs, key) + [] == KeysOf(rs, key);
    }
  }

  ghost predicate Tallies(a: Aggregates, rs: seq<FlowRecord>) {
    && a.decision == Tally(KeysOf(rs, DECISION_KEY))
    && a.ingress == Tally(KeysOf(rs, INGRESS_KEY))
    && a.host == Tally(KeysOf(rs, HOST_KEY))
    && a.process == Tally(KeysOf(rs, PROCESS_KEY))
    && a.bundleId == Tally(KeysOf(rs, BUNDLE_KEY))
    && a.missReason == Tally(KeysOf(rs, MISS_KEY))
    && a.destinationClass == Tally(KeysOf(rs, CLASS_KEY))
    && a.fakeIpHost == Tally(KeysOf(rs, FAKE_HOST_KEY))
    && a.fakeIpProcess == Tally(KeysOf(rs, FAKE_PROCESS_KEY))
  }

  /** Every counter map is the tally of its keys over the completed flows. */
  ghost predicate Tallied(d: Diagnostics, rs: seq<FlowRecord>) {
    && d.totals.completed == |rs|
    && Tallies(d.counts, rs)
    && d.recent.flows == Recent(rs, MAX_RECENT_FLOWS)
  }

  lemma CountedTallies(a: Aggregates, rs: seq<FlowRecord>, r: FlowRecord)
    requires Tallies(a, rs)
    ensures Tallies(Counted(a, r), rs + [r])
  {
    hide Tally, KeysOf, Increment, DecisionName, DestinationClass, FakeKey;
    TallyKeysAppend(rs, r, DECISION_KEY);
    TallyKeysAppend(rs, r, INGRESS_KEY);
    TallyKeysAppend(rs, r, HOST_KEY);
    TallyKeysAppend(rs, r, PROCESS_KEY);
    TallyKeysAppend(rs, r, BUNDLE_KEY);
    TallyKeysAppend(rs, r, MISS_KEY);
    TallyKeysAppend(rs, r, CLASS_KEY);
    TallyKeysAppend(rs, r, FAKE_HOST_KEY);
    TallyKeysAppend(rs, r, FAKE_PROCESS_KEY);
  }

  lemma CompletedTallied(d: Diagnostics, rs: seq<FlowRecord>, r: FlowRecord, observation: string)
    requires Tallied(d, rs) && |rs| < MAX_U64
    ensures Tallied(Completed(d, r, observation), rs + [r])
  {
    hide Tallies, Counted, PushBounded;
    CountedTallies(d.counts, rs, r);
    assert (rs + [r])[..|rs|] == rs;
  }

  lemma {:induction false} MapsAreTallies(events: seq<Event>)
    requires |events| <= MAX_U64
    ensures Tallied(After(events), Records(events)) && |Records(events)| <= |events|
  {
    hide Tallied, Apply, RecordOf;
    if events == [] {
      NothingYet();
    } else {
      var front, e := events[..|events| - 1], Last(events);
      MapsAreTallies(front);
      if e.FlowResult? {
        CompletedTallied(After(front), Records(front), RecordOf(e.context, e.result), e.observation);
        ApplyResult(After(front), e);
      } else {
        OtherTallied(After(front), Records(front), e);
        assert Records(events) == Records(front);
      }
    }
  }

  lemma ApplyResult(d: Diagnostics, e: Event)
    requires e.FlowResult?
    ensures Apply(d, e) == Completed(d, RecordOf(e.context, e.result), e.observation)
  {
  }

  lemma OtherTallied(d: Diagnostics, rs: seq<FlowRecord>, e: Event)
    requires Tallied(d, rs) && !e.FlowResult?
    ensures Tallied(Apply(d, e), rs)
  {
    hide Tallies, Recent, PushBounded;
  }

  lemma NothingYet()
    ensures Tallied(EMPTY, [])
  {
    assert forall key :: Tally(KeysOf([], key)) == map[];
  }

  /** All records of a run come from the two record constructors. */
  lemma {:induction false} RecordsAreConstructed(events: seq<Event>, i: nat)
    requires i < |Records(events)|
    ensures var r := Records(events)[i];
            && (r.decision.Intercepted? <==> r.missReason.None?)
            && (r.fakeIp.Some? ==> r.fakeIp.value == FAKE_IP)
  {
    var front := events[..|events| - 1];
    if i < |Records(front)| {
      RecordsAreConstructed(front, i);
    }
  }

  lemma {:induction false} KeyBalance(rs: seq<FlowRecord>)
    requires forall i :: 0 <= i < |rs| ==> (rs[i].decision.Intercepted? <==> rs[i].missReason.None?)
    requires forall i :: 0 <= i < |rs| ==> (rs[i].fakeIp.Some? ==> rs[i].fakeIp.value == FAKE_IP)
    ensures |KeysOf(rs, DECISION_KEY)| == |KeysOf(rs, HOST_KEY)| == |KeysOf(rs, CLASS_KEY)| == |rs|
    ensures |KeysOf(rs, MISS_KEY)| + Occurrences(KeysOf(rs, DECISION_KEY), "intercepted") == |rs|
    ensures |KeysOf(rs, FAKE_HOST_KEY)| == |KeysOf(rs, FAKE_PROCESS_KEY)| == Occurrences(KeysOf(rs, CLASS_KEY), FAKE_IP)
  {
    hide Occurrences;
    if rs == [] {
      OccurrencesBound([], "intercepted");
      OccurrencesBound([], FAKE_IP);
    } else {
      var front, r := rs[..|rs| - 1], Last(rs);
      assert forall i :: 0 <= i < |front| ==> front[i] == rs[i];
      assert r == rs[|rs| - 1];
      KeyBalance(front);
      OccurrencesAppend(KeysOf(front, DECISION_KEY), DecisionName(r.decision), "intercepted");
      OccurrencesAppend(KeysOf(front, CLASS_KEY), DestinationClass(r), FAKE_IP);
      NamesDiffer(r.decision);
    }
  }

  lemma {:induction false} KeyNames(rs: seq<FlowRecord>)
    requires forall i :: 0 <= i < |rs| ==> (rs[i].fakeIp.Some? ==> rs[i].fakeIp.value == FAKE_IP)
    ensures forall k :: k in KeysOf(rs, DECISION_KEY) ==> k in {"intercepted", "passthrough", "failed", "unknown"}
    ensures forall k :: k in KeysOf(rs, CLASS_KEY) ==> k in {FAKE_IP, "ordinary"}
  {
    if rs != [] {
      var front := rs[..|rs| - 1];
      assert forall i :: 0 <= i < |front| ==> front[i] == rs[i];
      assert Last(rs) == rs[|rs| - 1];
      KeyNames(front);
    }
  }

  lemma OccurrencesAppend(keys: seq<string>, k: string, key: string)
    ensures Occurrences(keys + [k], key) == Occurrences(keys, key) + if k == key then 1 else 0
  {
    assert (keys + [k])[..|keys|] == keys;
  }

  lemma NamesDiffer(d: Decision)
    ensures DecisionName(d) == "intercepted" <==> d.Intercepted?
    ensures "ordinary" != FAKE_IP
  {
    assert |"passthrough"| == 11 && "failed"[0] == 'f' && "unknown"[0] == 'u' && "ordinary"[0] == 'o';
    assert "intercepted"[0] == 'i' && "passthrough"[0] == 'p' && FAKE_IP[0] == 'f';
  }

  lemma FewKeys(keys: seq<string>, names: set<string>)
    requires forall k :: k in keys ==> k in names
    requires |names| <= MAX_AGGREGATE_KEYS
    ensures Fits(keys)
  {
    assert Elements(keys) <= names;
    SubsetSize(Elements(keys), names);
  }

  function CountOf(m: Counts, key: string): nat {
    if key in m then m[key] else 0
  }

  /**
   * Conservation across the counter maps, after any run: each map accounts for every completed flow
   * it should, and the recent list holds the newest records in order.
   */
  lemma CrossMapConservation(events: seq<Event>)
    requires |events| <= MAX_U64
    ensures var d := After(events); var n := |Records(events)|;
            && d.totals.completed == n == Sum(d.counts.decision) == Sum(d.counts.host)
            && n == CountOf(d.counts.decision, "intercepted") + Sum(d.counts.missReason)
            && Sum(d.counts.fakeIpHost) == Sum(d.counts.fakeIpProcess) == CountOf(d.counts.destinationClass, FAKE_IP)
            && d.recent.flows == Records(events)[n - Min(MAX_RECENT_FLOWS, n)..]
  {
    hide Tally, KeysOf, After, Records, Fits, Occurrences, Recent;
    var rs := Records(events);
    MapsAreTallies(events);
    forall i | 0 <= i < |rs|
      ensures rs[i].decision.Intercepted? <==> rs[i].missReason.None?
      ensures rs[i].fakeIp.Some? ==> rs[i].fakeIp.value == FAKE_IP
    {
      RecordsAreConstructed(events, i);
    }
    KeyBalance(rs);
    KeyNames(rs);
    OccurrencesBound(KeysOf(rs, DECISION_KEY), "intercepted");
    OccurrencesBound(KeysOf(rs, CLASS_KEY), FAKE_IP);
    TallySum(KeysOf(rs, DECISION_KEY));
    TallySum(KeysOf(rs, HOST_KEY));
    TallySum(KeysOf(rs, MISS_KEY));
    TallySum(KeysOf(rs, FAKE_HOST_KEY));
    TallySum(KeysOf(rs, FAKE_PROCESS_KEY));
    FewKeys(KeysOf(rs, DECISION_KEY), {"intercepted", "passthrough", "failed", "unknown"});
    FewKeys(KeysOf(rs, CLASS_KEY), {FAKE_IP, "ordinary"});
    TallyUncapped(KeysOf(rs, DECISION_KEY), "intercepted");
    TallyUncapped(KeysOf(rs, CLASS_KEY), FAKE_IP);
    RecentIsSuffix(rs, MAX_RECENT_FLOWS);
  }

  // ---- One flow ----

  function Once(key: Option<string>): Counts {
    if key.Some? then map[key.value := 1] else map[]
  }

  /** What the recorder shows after a single flow: each map counts one key of its record, or none. */
  lemma OneFlow(c: Context, result: Result<Outcome, string>, observation: string)
    ensures var d, r := After([FlowResult(c, result, observation)]), RecordOf(c, result);
            && d.totals == Totals(0, 1, 0, 0)
            && d.recent == RecentLists([r], [observation], [])
            && d.counts.ingress == map[c.ingressSource := 1]
            && d.counts.host == map[r.host := 1]
            && d.counts.process == map[r.processLabel := 1]
            && d.counts.bundleId == Once(r.bundleId)
            && d.counts.missReason == Once(r.missReason)
            && d.counts.decision == Once(match result
                                         case Ok(InterceptedFlow(_, _)) => Some("intercepted")
                                         case Ok(PassthroughFlow(_)) => Some("passthrough")
                                         case Ok(OtherFlow) => Some("unknown")
                                         case Err(_) => Some("failed"))
    ensures var counts, r := After([FlowResult(c, result, observation)]).counts, RecordOf(c, result);
            if c.destination.ipv4Prefix in {Some((198, 18)), Some((198, 19))} then
              && counts.destinationClass == map["fake_ip_candidate" := 1]
              && counts.fakeIpHost == map[r.host := 1] && counts.fakeIpProcess == map[r.processLabel := 1]
            else
              && counts.destinationClass == map["ordinary" := 1]
              && counts.fakeIpHost == map[] && counts.fakeIpProcess == map[]
  {
    hide RecordOf;
    var e := FlowResult(c, result, observation);
    assert [e][..0] == [];
    RecordFields(c, result);
  }

  // ---- Errors and observations ----

  function Errors(events: seq<Event>): seq<string> {
    if events == [] then []
    else Errors(events[..|events| - 1]) + ErrorOf(Last(events))
  }

  function ErrorOf(e: Event): seq<string> {
    match e
    case AcceptError(error) => [error]
    case _ => []
  }

  function Observations(events: seq<Event>): seq<string> {
    if events == [] then []
    else Observations(events[..|events| - 1]) + ObservationOf(Last(events))
  }

  function ObservationOf(e: Event): seq<string> {
    match e
    case IngressObserved(observation) => [observation]
    case FlowResult(_, _, observation) => [observation]
    case _ => []
  }

  lemma RecentAppend<T>(history: seq<T>, xs: seq<T>, limit: nat)
    requires |xs| <= 1
    ensures Recent(history + xs, limit) ==
            if xs == [] then Recent(history, limit) else PushBounded(Recent(history, limit), xs[0], limit)
  {
    if xs == [] {
      assert history + xs == history;
    } else {
      assert (history + xs)[..|history|] == history;
    }
  }

  /** The two other queues after one event. */
  lemma QueuesStep(d: Diagnostics, e: Event)
    ensures var l, l' := d.recent, Apply(d, e).recent;
            && l'.acceptErrors == (if ErrorOf(e) == [] then l.acceptErrors
                                   else PushBounded(l.acceptErrors, ErrorOf(e)[0], MAX_RECENT_ACCEPT_ERRORS))
            && l'.observations == (if ObservationOf(e) == [] then l.observations
                                   else PushBounded(l.observations, ObservationOf(e)[0], MAX_RECENT_FLOWS))
    ensures Apply(d, e).totals.acceptErrors ==
            if ErrorOf(e) == [] then d.totals.acceptErrors else SatAdd(d.totals.acceptErrors, 1)
  {
    hide PushBounded, Counted, RecordOf;
  }

  /**
   * After any run the error total is the number of accept and preparation errors, the error queue
   * holds the newest 25 of them in order, and the observation queue the newest 100 observations of
   * completed flows and failed preparations together.
   */
  lemma {:induction false} QueuesAreRecent(events: seq<Event>)
    requires |events| <= MAX_U64
    ensures var d := After(events); var n := |Errors(events)|; var m := |Observations(events)|;
            && n <= |events| && d.totals.acceptErrors == n
            && d.recent.acceptErrors == Errors(events)[n - Min(MAX_RECENT_ACCEPT_ERRORS, n)..]
            && d.recent.observations == Observations(events)[m - Min(MAX_RECENT_FLOWS, m)..]
  {
    hide Apply, Recent, PushBounded;
    if events != [] {
      var front, e := events[..|events| - 1], Last(events);
      QueuesAreRecent(front);
      QueuesStep(After(front), e);
      RecentIsSuffix(Errors(front), MAX_RECENT_ACCEPT_ERRORS);
      RecentIsSuffix(Observations(front), MAX_RECENT_FLOWS);
      RecentAppend(Errors(front), ErrorOf(e), MAX_RECENT_ACCEPT_ERRORS);
      RecentAppend(Observations(front), ObservationOf(e), MAX_RECENT_FLOWS);
      RecentIsSuffix(Errors(events), MAX_RECENT_ACCEPT_ERRORS);
      RecentIsSuffix(Observations(events), MAX_RECENT_FLOWS);
    }
  }
}
