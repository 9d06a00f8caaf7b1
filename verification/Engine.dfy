/**
 The engine as the adapter sees it. Detection, window arithmetic, address and
 country matching live in other crates, so each is an arbitrary function here:
 every theorem holds for all engines, and a theorem that needs a promise of the
 engine names it.

 A prebuilt stage keeps private state between requests. Its decision maps that
 state and the request to the next state and, perhaps, an answer.
 */
module Engine {
  import opened Http
  import opened Octets
  import opened Wrappers

  /** Private state of one stage, encoded. */
  type Snapshot = string

  type Windows = map<Ip, seq<nat>>

  /** Banned addresses with their expiry. */
  type BanTable = map<Ip, nat>

  type Counts = map<Ip, map<string, nat>>

  // ---- shared stores: cloning a layer clones the handles, not the contents -----------

  class RateLimiter {
    const config: RateLimitConfig
    var windows: Windows

    constructor (config: RateLimitConfig)
      ensures this.config == config && windows == map[]
    {
      this.config := config;
      windows := map[];
    }

    /** Drop every window. */
    method Reset()
      modifies this
      ensures windows == map[]
    {
      windows := map[];
    }
  }

  class IpBanManager {
    var table: BanTable

    constructor ()
      ensures table == map[]
    {
      table := map[];
    }
  }

  class ViolationCounters {
    var counts: Counts

    constructor ()
      ensures counts == map[]
    {
      counts := map[];
    }
  }

  class BehaviorTracker {
    var state: Snapshot

    constructor ()
      ensures state == ""
    {
      state := "";
    }
  }

  // ---- configuration values -------------------------------------------------------

  datatype LimitKnobs = DefaultLimits | Limits(limit: nat, window: nat)

  datatype RateLimitConfig = RateLimitConfig(enabled: bool, knobs: LimitKnobs)

  datatype BanKnobs = DefaultBans | Bans(threshold: nat, duration: nat)

  datatype IpBanConfig = IpBanConfig(enabled: bool, knobs: BanKnobs)

  /** The configurations a stage is built with when no limiter or ban store is installed. */
  const LIMITER_OFF := RateLimitConfig(false, DefaultLimits)
  const BANNING_OFF := IpBanConfig(false, DefaultBans)

  datatype GateVerdict = Allowed(decision: GateDecision) | Denied(reason: string)

  datatype IpGate = IpGate(evaluate: Ip -> GateVerdict)

  datatype RouteIpGate = RouteIpGate(denies: Ip -> bool, whitelistConfigured: bool)

  datatype CountryGate = CountryGate(whitelist: set<string>, blocked: set<string>)

  datatype UserAgentFilter = UserAgentFilter(isBlocked: string -> bool)

  datatype Selectors = Selectors(providers: set<string>)

  datatype CorsConfig = CorsConfig(enabled: bool, allowOrigins: seq<string>)

  // ---- answers ----------------------------------------------------------------------

  datatype Answer = Answer(status: U16, body: string)

  /** A custom check answers with its own status, or none. */
  datatype CustomAnswer = CustomAnswer(status: Option<U16>)

  datatype StageResponse = StageResponse(
    status: StatusCode, body: string, customBody: Option<string>, retryAfter: Option<nat>)

  datatype Redirect = Redirect(status: U16, location: Url)

  datatype ReferrerVerdict = ReferrerAllowed | ReferrerMissing | ReferrerInvalid

  datatype ThreatFinding = ThreatFinding(categories: seq<string>, reason: string)

  datatype Surfaces = Surfaces(
    urlPath: Option<string>,
    queryParams: seq<(Octets, Octets)>,
    headers: seq<(string, string)>,
    contentType: string,
    rawBody: Octets,
    exclusions: Option<Handle>)

  /** One run of the detection engine; a panic is an outcome, not a crash. */
  datatype ScanRun = NoThreat | Threat(finding: ThreatFinding) | ScanPanic

  // ---- stages -----------------------------------------------------------------------

  type Decision<A> = (Snapshot, Option<A>)

  datatype HttpsInput = HttpsInput(
    path: string, scheme: string, clientHost: Option<string>, forwardedProto: Option<string>,
    target: Url, requireHttps: Option<bool>)

  datatype EmergencyStage = EmergencyStage(decide: (Snapshot, Facts) -> Decision<Answer>)
  datatype HttpsStage = HttpsStage(decide: (Snapshot, HttpsInput) -> Decision<Redirect>)
  datatype HeadersAuthStage = HeadersAuthStage(
    decide: (Snapshot, string, seq<(string, string)>) -> Decision<StatusAnswer>)
  datatype GateStage = GateStage(decide: (Snapshot, Facts) -> Decision<Answer>)
  datatype CustomChecksStage = CustomChecksStage(
    validators: (Snapshot, Facts, Option<Octets>) -> Decision<CustomAnswer>,
    request: (Snapshot, Facts, Option<Octets>) -> Decision<CustomAnswer>)
  datatype GeoStage = GeoStage(decide: (Snapshot, Option<Ip>, Option<GateDecision>) -> Decision<StageResponse>)
  datatype CloudStage = CloudStage(
    decide: (Snapshot, Option<Ip>, Option<GateDecision>, Option<Selectors>) -> Decision<StageResponse>)
  datatype UserAgentStage = UserAgentStage(
    decide: (Snapshot, UserAgentInput) -> Decision<StageResponse>)

  /** The header stage answers with a status that is valid by type. */
  datatype StatusAnswer = StatusAnswer(status: StatusCode, body: string)

  datatype UserAgentInput = UserAgentInput(
    ip: Option<Ip>, gate: Option<GateDecision>, path: string, userAgent: Option<string>,
    finding: Option<ThreatFinding>)

  // ---- the rate-limit stage ------------------------------------------------------------

  /** The value part of the stage: its configuration and the seams it was built with. */
  datatype StageKnobs = StageKnobs(
    rateLimit: RateLimitConfig,
    ipBan: IpBanConfig,
    passiveMode: bool,
    customErrors: map<nat, string>,
    routeTiers: Option<Handle>,
    geoHandler: Option<Handle>,
    events: Option<Handle>,
    observability: Option<Handle>,
    onBlock: Option<Handle>,
    distributed: Option<Handle>,
    distributedBans: Option<Handle>)

  /** The built stage: clones share the three stores. */
  datatype RateLimitStage = RateLimitStage(
    knobs: StageKnobs, limiter: RateLimiter, manager: IpBanManager, counters: ViolationCounters)

  datatype TierStores = TierStores(windows: Windows, counts: Counts, bans: BanTable)

  datatype TierInput = TierInput(
    ip: Option<Ip>, path: string, tiers: Option<RouteRateLimits>, gate: Option<GateDecision>,
    finding: Option<ThreatFinding>)

  // ---- the response processor ------------------------------------------------------------

  datatype ProcessorKnobs = ProcessorKnobs(
    securityHeaders: Option<bool>, cors: Option<CorsConfig>, rules: seq<Handle>, passiveMode: bool)

  datatype ResponseProcessor = ResponseProcessor(
    knobs: ProcessorKnobs, tracker: BehaviorTracker, manager: IpBanManager)

  datatype RequestBits = RequestBits(verb: string, urlPath: string, clientIp: string, origin: Option<string>)

  /** The response view the processor and the modifier work on. */
  datatype ResponseBits = ResponseBits(status: U16, headers: seq<(string, string)>)

  /** The response modifier; a panic returns nothing. */
  datatype ResponseModifier = ResponseModifier(run: ResponseBits -> Option<ResponseBits>)

  datatype BehaviorState = BehaviorState(tracker: Snapshot, bans: BanTable)

  datatype PreflightAnswer = PreflightAnswer(status: U16, body: string, headers: seq<(string, string)>)

  /** The engine functions the adapter calls outside a prebuilt stage. */
  datatype Engine = Engine(
    decideBans: (StageKnobs, BanTable, nat, Option<Ip>) -> (BanTable, Option<StageResponse>),
    decideTiers: (StageKnobs, TierStores, nat, TierInput) -> (TierStores, Option<StageResponse>),
    usageRules: (ProcessorKnobs, BehaviorState, nat, string, string, seq<Handle>) -> (BehaviorState, bool),
    process: (ProcessorKnobs, BehaviorState, nat, RequestBits, U16) -> (BehaviorState, ResponseBits),
    isPreflight: (string, seq<(string, string)>) -> bool,
    buildPreflight: (CorsConfig, Option<string>, Option<string>, Option<string>) -> PreflightAnswer,
    headerEntry: (string, string) -> Option<(string, string)>,
    parseRouteIps: (Option<seq<string>>, Option<seq<string>>) -> Option<RouteIpGate>,
    parseCountries: (Option<seq<string>>, Option<seq<string>>) -> CountryGate,
    countryBlocks: (Ip, CountryGate, Handle) -> bool,
    headersAuth: (HeaderAuthRules, string -> Option<string>) -> Option<Answer>,
    referrer: (Option<string>, seq<string>) -> ReferrerVerdict,
    validators: (seq<Handle>, Facts, Option<Octets>) -> Option<CustomAnswer>,
    isUtf8: Octets -> bool,
    withinWindow: (map<string, string>, nat) -> bool,
    detectionEnabled: (bool, Option<bool>) -> bool,
    scan: (Surfaces, Option<Handle>) -> ScanRun,
    parseSelectors: seq<string> -> Option<Selectors>,
    userAgentFilter: seq<string> -> Option<UserAgentFilter>)
}
