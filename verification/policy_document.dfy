/** The three policy sections, the durable document that carries them, and the rules for reading it back. */
module PolicyDocument {
  import opened Common

  /** Next hop of the outbound route; its text is interpreted only by the proxy library. */
  datatype Upstream = Upstream(text: string)

  /** Outbound route. No upstream means direct routing. */
  datatype NetworkConfig = NetworkConfig(upstream: Option<Upstream>)

  /** TLS decryption policy, as text interpreted only by the MITM engine. */
  datatype MitmConfig = MitmConfig(text: string)

  /** Harness usage policy, as text interpreted only by the agent hooks. */
  datatype HooksConfig = HooksConfig(text: string)

  /** `network` None inherits the startup route; Some with no upstream is an explicit direct route. */
  datatype Policies = Policies(mitm: MitmConfig, hooks: HooksConfig, network: Option<NetworkConfig>)

  /** Validators and defaults that live in other crates. */
  datatype Rules = Rules(
    mitmValid: MitmConfig -> bool,
    upstreamValid: Upstream -> bool,
    defaultMitm: MitmConfig,
    defaultHooks: HooksConfig)

  const SCHEMA_VERSION: nat := 1

  /** A parsed policy file: a section may be absent, which differs from present but empty. */
  datatype Document = Document(
    schemaVersion: nat,
    mitm: Option<MitmConfig>,
    hooks: Option<HooksConfig>,
    network: Option<NetworkConfig>)

  /** What the bytes of a file decode to. A torn file may decode to anything at all. */
  datatype Content = Parsed(document: Document) | Unparsable

  datatype LoadError = BadToml | UnsupportedSchema(actual: nat) | InvalidMitm | InvalidNetwork

  predicate RouteValid(rules: Rules, network: NetworkConfig) {
    network.upstream.Some? ==> rules.upstreamValid(network.upstream.value)
  }

  predicate PoliciesValid(rules: Rules, p: Policies) {
    && rules.mitmValid(p.mitm)
    && (p.network.Some? ==> RouteValid(rules, p.network.value))
  }

  /** The built-in MITM default passes its own validator. */
  predicate RulesSane(rules: Rules) {
    rules.mitmValid(rules.defaultMitm)
  }

  function DefaultPolicies(rules: Rules): Policies {
    Policies(rules.defaultMitm, rules.defaultHooks, None)
  }

  /** The durable form: both fixed sections are always written, `network` only when it is an override. */
  function Encode(p: Policies): Content {
    Parsed(Document(SCHEMA_VERSION, Some(p.mitm), Some(p.hooks), p.network))
  }

  /** Start-up reading of the policy file. */
  function Load(rules: Rules, file: Option<Content>): (r: Result<Policies, LoadError>)
    ensures RulesSane(rules) && r.Ok? ==> PoliciesValid(rules, r.value)
  {
    match file
    case None => Ok(DefaultPolicies(rules))
    case Some(Unparsable) => Err(BadToml)
    case Some(Parsed(d)) =>
      if d.schemaVersion != SCHEMA_VERSION then
        Err(UnsupportedSchema(d.schemaVersion))
      else
        var p := Policies(
          if d.mitm.Some? then d.mitm.value else rules.defaultMitm,
          if d.hooks.Some? then d.hooks.value else rules.defaultHooks,
          d.network);
        if !rules.mitmValid(p.mitm) then Err(InvalidMitm)
        else if p.network.Some? && !RouteValid(rules, p.network.value) then Err(InvalidNetwork)
        else Ok(p)
  }

  /**
   * Start-up reading, case by case: no file means the built-in defaults, undecodable bytes and a foreign
   * schema version are refused as such, an absent section means its default (for the route: no override),
   * and the MITM validator is asked before that of an upstream. Nothing else is refused.
   */
  lemma LoadDecides(rules: Rules, file: Option<Content>)
    ensures file.None? ==> Load(rules, file) == Ok(Policies(rules.defaultMitm, rules.defaultHooks, None))
    ensures Load(rules, file) == Err(BadToml) <==> file == Some(Unparsable)
    ensures file.Some? && file.value.Parsed? ==>
              var d, r := file.value.document, Load(rules, file);
              var mitm := if d.mitm.Some? then d.mitm.value else rules.defaultMitm;
              && (d.schemaVersion != 1 <==> r == Err(UnsupportedSchema(d.schemaVersion)))
              && (r == Err(InvalidMitm) <==> d.schemaVersion == 1 && !rules.mitmValid(mitm))
              && (r == Err(InvalidNetwork) <==> d.schemaVersion == 1 && rules.mitmValid(mitm) && BadUpstream(rules, d))
              && (r.Ok? ==> r.value.mitm == mitm && r.value.network == d.network)
              && (r.Ok? ==> r.value.hooks == if d.hooks.Some? then d.hooks.value else rules.defaultHooks)
              && (r.Err? && r.error.UnsupportedSchema? ==> r.error.actual == d.schemaVersion)
  {
  }

  /** The document names an upstream, and the proxy library refuses it. */
  predicate BadUpstream(rules: Rules, d: Document) {
    d.network.Some? && d.network.value.upstream.Some? && !rules.upstreamValid(d.network.value.upstream.value)
  }

  /** Route used by new connections: the durable override if there is one, else the startup file's. */
  function Resolve(startup: Option<Upstream>, network: Option<NetworkConfig>): NetworkConfig {
    if network.Some? then network.value else NetworkConfig(startup)
  }

  datatype Update = SetNetwork(network: NetworkConfig) | SetMitm(mitm: MitmConfig) | SetHooks(hooks: HooksConfig)

  /** Validation done before anything durable happens; hooks are not validated. */
  predicate UpdateValid(rules: Rules, u: Update) {
    match u
    case SetNetwork(network) => RouteValid(rules, network)
    case SetMitm(mitm) => rules.mitmValid(mitm)
    case SetHooks(_) => true
  }

  /** Candidate snapshot of an update: its own section replaced, the other two kept. */
  function Apply(p: Policies, u: Update): Policies {
    match u
    case SetNetwork(network) => p.(network := Some(network))
    case SetMitm(mitm) => p.(mitm := mitm)
    case SetHooks(hooks) => p.(hooks := hooks)
  }

  /**
   * Durable round trip: exactly the snapshots that pass validation are read back,
   * and they are read back unchanged (including "no override" versus "direct").
   */
  lemma LoadEncoded(rules: Rules, p: Policies)
    ensures PoliciesValid(rules, p) <==> Load(rules, Some(Encode(p))).Ok?
    ensures PoliciesValid(rules, p) ==> Load(rules, Some(Encode(p))) == Ok(p)
  {
  }
}
