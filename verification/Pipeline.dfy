/**
 The fused request pipeline (`GuardService::call` of `src/service.rs`) as a
 state machine: the arms in source order, one function an arm, and a runner that
 stops at the first arm that answers.

 The state carries the stores as values, keyed by the manager objects, so two
 handles to one ban manager really are one entry.
 */
module Pipeline {
  import opened Authority
  import opened BodyBuffer
  import opened Engine
  import opened Http
  import opened Layer
  import opened Octets
  import opened Query
  import opened Wrappers

  // ---- state -----------------------------------------------------------------------

  /** What the stages with private state remember. */
  datatype StageStates = StageStates(
    emergency: Snapshot, https: Snapshot, headersAuth: Snapshot, referrer: Snapshot, customChecks: Snapshot,
    timeWindow: Snapshot, geo: Snapshot, cloud: Snapshot, userAgent: Snapshot)

  /** Counters of what the guard did: response passes, events, tier consultations, hook calls. */
  datatype Journal = Journal(passes: nat, headerEvents: nat, consults: nat, blockHooks: nat, errorHooks: nat)

  datatype World = World(
    windows: Windows,
    counts: Counts,
    bans: map<IpBanManager, BanTable>,
    tracker: Snapshot,
    stages: StageStates,
    received: seq<Request>,
    journal: Journal)

  function BansOf(w: World, manager: IpBanManager): BanTable
  {
    if manager in w.bans then w.bans[manager] else map[]
  }

  function WithBans(w: World, manager: IpBanManager, table: BanTable): World
  {
    w.(bans := w.bans[manager := table])
  }

  datatype InnerReply = Reply(response: Response) | Failed(error: string)

  /** The wrapped service answers from everything it has been called with. */
  datatype Inner = Inner(answer: seq<Request> -> InnerReply)

  /** Everything one call reads and never writes. */
  datatype Env = Env(engine: Engine, layer: GuardLayer, inner: Inner, now: nat, frames: seq<Frame>)

  /** The mutable locals of one call. */
  datatype Flow = Flow(
    parts: Parts,
    facts: Facts,
    route: Option<RouteConfig>,
    skipIpLists: bool,
    skipCountries: bool,
    buffered: Option<Octets>,
    verdict: Option<ThreatFinding>,
    tiers: Option<RouteRateLimits>,
    world: World)

  datatype Exit =
    | Preflighted(response: Response)   // answered from the CORS configuration alone
    | GateDenied(response: Response)    // the address gate answered
    | Blocked(response: Response)       // any other answer of the guard
    | Forwarded(response: Response)     // the wrapped service answered
    | InnerError(error: string)         // the wrapped service failed
    | Panicked                          // an answer carried a status that does not exist

  /** The run handed the request to the wrapped service. */
  predicate Reaches(exit: Exit) { exit.Forwarded? || exit.InnerError? }

  datatype Outcome = Continue(flow: Flow) | Done(exit: Exit, world: World)

  // ---- the response pass -------------------------------------------------------------

  datatype Lane = ForwardedLane | GeneratedLane

  datatype ProcessorInput = ProcessorInput(verb: string, urlPath: string, clientIp: string, origin: Option<string>)

  function InputFromFacts(facts: Facts): ProcessorInput
  {
    ProcessorInput(facts.verb, facts.path, facts.ipString, facts.origin)
  }

  function InputFromParts(parts: Parts): ProcessorInput
  {
    ProcessorInput(parts.verb, parts.uri.path, IpString(parts.extensions.clientIp), HeaderText(parts.headers, "origin"))
  }

  /** Header insertion, one pair after the other; a pair that is no header is dropped. */
  function InsertHeaders(engine: Engine, headers: map<string, FieldValue>, pairs: seq<(string, string)>)
    : map<string, FieldValue>
    decreases |pairs|
  {
    if pairs == [] then headers
    else
      var entry := engine.headerEntry(pairs[0].0, pairs[0].1);
      InsertHeaders(engine,
                    if entry.Some? then headers[entry.value.0 := Text(entry.value.1)] else headers,
                    pairs[1..])
  }

  predicate EmitsHeaderEvent(layer: GuardLayer, processor: ResponseProcessor, lane: Lane)
  {
    lane.ForwardedLane? && processor.knobs.securityHeaders == Some(true) && layer.events.Some?
  }

  /** The processor and its stores. */
  function Processed(env: Env, p: ResponseProcessor, input: ProcessorInput, status: U16, w: World)
    : (World, ResponseBits)
  {
    var (state, bits) := env.engine.process(
      p.knobs, BehaviorState(w.tracker, BansOf(w, p.manager)), env.now,
      RequestBits(input.verb, input.urlPath, input.clientIp, input.origin), status);
    (WithBans(w, p.manager, state.bans).(
       tracker := state.tracker, journal := w.journal.(passes := w.journal.passes + 1)),
     bits)
  }

  /** The modifier runs last; if it panics, the unmodified view and an error report remain. */
  function Modified(layer: GuardLayer, bits: ResponseBits, w: World): (World, ResponseBits)
  {
    if layer.responseModifier.None? then (w, bits)
    else
      var outcome := layer.responseModifier.value.run(bits);
      if outcome.Some? then (w, outcome.value)
      else if layer.onError.Some? then (w.(journal := w.journal.(errorHooks := w.journal.errorHooks + 1)), bits)
      else (w, bits)
  }

  function HeaderEvent(layer: GuardLayer, p: ResponseProcessor, lane: Lane, w: World): World
  {
    if EmitsHeaderEvent(layer, p, lane)
    then w.(journal := w.journal.(headerEvents := w.journal.headerEvents + 1))
    else w
  }

  /** `apply_response_processor` and the status write its callers do. */
  function Pass(env: Env, input: ProcessorInput, lane: Lane, response: Response, w: World): (Response, World)
  {
    if env.layer.processor.None? then (response, w)
    else
      var p := env.layer.processor.value;
      var (w1, bits1) := Processed(env, p, input, response.status, w);
      var w2 := HeaderEvent(env.layer, p, lane, w1);
      var (w3, bits) := Modified(env.layer, bits1, w2);
      (response.(headers := InsertHeaders(env.engine, response.headers, bits.headers),
                 status := if ValidStatus(bits.status) then bits.status else response.status),
       w3)
  }

  // ---- answers -------------------------------------------------------------------------

  function Finish(env: Env, f: Flow, response: Response): Outcome
  {
    var (r, w) := Pass(env, InputFromParts(f.parts), GeneratedLane, response, f.world);
    Done(Blocked(r), w)
  }

  /** `block_response`: a status that does not exist panics before the pass. */
  function Block(env: Env, f: Flow, status: U16, body: string): Outcome
  {
    if ValidStatus(status) then Finish(env, f, PlainText(status, body)) else Done(Panicked, f.world)
  }

  function Fail(env: Env, f: Flow): Outcome { Finish(env, f, Http.Failure()) }

  /** The stage's own answer: its custom body wins, the throttled shape carries `Retry-After`. */
  function StageAnswer(a: StageResponse): Response
  {
    var plain := PlainText(a.status, if a.customBody.Some? then a.customBody.value else a.body);
    if a.retryAfter.Some?
    then plain.(headers := plain.headers["retry-after" := Seconds(a.retryAfter.value)])
    else plain
  }

  function RedirectAnswer(r: Redirect): Response
  {
    var plain := PlainText(r.status, "");
    plain.(headers := plain.headers["location" := Target(r.location)])
  }

  function ErrorBody(layer: GuardLayer, status: nat, message: string): string
  {
    if status in layer.customErrors then layer.customErrors[status] else message
  }

  /** The block hook fires when there is a hook and the log knobs it needs. */
  function BlockHook(layer: GuardLayer, w: World): World
  {
    if layer.observability.Some? && layer.onBlock.Some?
    then w.(journal := w.journal.(blockHooks := w.journal.blockHooks + 1))
    else w
  }

  // ---- helpers the arms share --------------------------------------------------------------

  /** The named check, or the wildcard. */
  predicate Bypassed(route: Option<RouteConfig>, check: string)
  {
    route.Some? && ("all" in route.value.bypassed || check in route.value.bypassed)
  }

  const USIZE_LIMIT: nat := 0x1_0000_0000_0000_0000

  function EffectiveCap(layer: GuardLayer, route: Option<RouteConfig>): nat
  {
    if route.Some? && route.value.maxRequestSize.Some? && route.value.maxRequestSize.value < USIZE_LIMIT
    then route.value.maxRequestSize.value
    else layer.bodyCap
  }

  function Utf8View(engine: Engine, body: Option<Octets>): Option<Octets>
  {
    if body.Some? && engine.isUtf8(body.value) then body else None
  }

  predicate HasHeaderRules(rules: HeaderAuthRules)
  {
    || rules.requiredHeaders != []
    || rules.authRequired.Some?
    || rules.apiKeyRequired
    || rules.authorizationRequired.Some?
  }

  const EXCLUDED_HEADERS: seq<string> :=
    ["host", "user-agent", "accept", "accept-encoding", "connection", "origin", "referer"]

  predicate IsExcludedHeader(name: string)
  {
    (|name| >= 4 && name[..4] == "sec-") || name in EXCLUDED_HEADERS
  }

  function ScannedHeaders(headers: seq<Header>): seq<(string, string)>
  {
    if headers == [] then []
    else if !IsExcludedHeader(headers[0].name) && headers[0].value.Visible?
    then [(headers[0].name, headers[0].value.text)] + ScannedHeaders(headers[1..])
    else ScannedHeaders(headers[1..])
  }

  /** The surfaces of one scan: path, decoded query, screened headers, body. */
  function ScanSurfaces(parts: Parts, body: Option<Octets>): Surfaces
  {
    var contentType := HeaderText(parts.headers, "content-type");
    Surfaces(
      if parts.uri.path == "/" then None else Some(parts.uri.path),
      QueryParams(if parts.uri.query.Some? then parts.uri.query.value else []),
      ScannedHeaders(parts.headers),
      if contentType.Some? then contentType.value else "",
      Rebuilt(body),
      parts.extensions.exclusions)
  }

  predicate ScanSkipped(env: Env, f: Flow)
  {
    || Bypassed(f.route, "penetration")
    || !env.engine.detectionEnabled(
         env.layer.detection,
         if f.route.Some? then Some(f.route.value.enableSuspiciousDetection) else None)
  }

  function Scan(env: Env, f: Flow): ScanRun
  {
    env.engine.scan(ScanSurfaces(f.parts, f.buffered), env.layer.exclusions)
  }

  // ---- the arms -------------------------------------------------------------------------

  datatype Arm =
    | ExcludedPath | Preflight | ResolveRoute | UsageRules | RouteIps | RouteCountries | GlobalGate
    | EmergencyMode | HttpsArm | BufferArm | RouteHeaders | HeadersArm | RouteReferrer | ReferrerArm
    | RouteValidators | Validators | RouteWindow | WindowArm | ScanArm
    | BanArm | GeoArm | CloudArm | RouteAgents | AgentArm
    | CarrierTiers | TierArm | ThreatBlock | CustomRequestArm | ForwardArm

  /** The first part: what runs before anything of the request is inspected. */
  const ADMISSION: seq<Arm> :=
    [ExcludedPath, Preflight, ResolveRoute, UsageRules, RouteIps, RouteCountries, GlobalGate]

  const CONTENT: seq<Arm> :=
    [EmergencyMode, HttpsArm, BufferArm, RouteHeaders, HeadersArm, RouteReferrer, ReferrerArm,
     RouteValidators, Validators, RouteWindow, WindowArm]

  const SCREENING: seq<Arm> := [ScanArm, BanArm, GeoArm, CloudArm, RouteAgents, AgentArm]

  const SETTLEMENT: seq<Arm> := [CarrierTiers, TierArm, ThreatBlock, CustomRequestArm, ForwardArm]

  const ORDER: seq<Arm> := ADMISSION + CONTENT + SCREENING + SETTLEMENT

  /** The inner call and the response pass over its answer. */
  function ForwardCall(env: Env, f: Flow, body: Octets): Outcome
  {
    var w := f.world.(received := f.world.received + [Request(f.parts, body)]);
    match env.inner.answer(w.received)
    case Failed(error) => Done(InnerError(error), w)
    case Reply(response) =>
      var (r, w') := Pass(env, InputFromFacts(f.facts), ForwardedLane, response, w);
      Done(Forwarded(r), w')
  }

  function StepExcludedPath(env: Env, f: Flow): Outcome
  {
    if f.facts.path in env.layer.excludePaths then ForwardCall(env, f, []) else Continue(f)
  }

  function PreflightPairs(headers: seq<Header>): seq<(string, string)>
  {
    if headers == [] then []
    else [(headers[0].name, if headers[0].value.Visible? then headers[0].value.text else "")]
         + PreflightPairs(headers[1..])
  }

  const REQUEST_METHOD_HEADER := "access-control-request-method"
  const REQUEST_HEADERS_HEADER := "access-control-request-headers"

  function StepPreflight(env: Env, f: Flow): Outcome
  {
    if !EqIgnoreCase(f.facts.verb, "OPTIONS") || env.layer.processor.None?
       || env.layer.processor.value.knobs.cors.None? || !env.layer.processor.value.knobs.cors.value.enabled
    then Continue(f)
    else
      var pairs := PreflightPairs(f.parts.headers);
      if !env.engine.isPreflight(f.parts.verb, pairs) then Continue(f)
      else
        var a := env.engine.buildPreflight(
          env.layer.processor.value.knobs.cors.value, FindPair(pairs, "origin"),
          FindPair(pairs, REQUEST_METHOD_HEADER), FindPair(pairs, REQUEST_HEADERS_HEADER));
        if !ValidStatus(a.status) then Done(Panicked, f.world)
        else
          var plain := PlainText(a.status, a.body);
          Done(Preflighted(plain.(headers := InsertHeaders(env.engine, plain.headers, a.headers))), f.world)
  }

  /** The carrier extension wins over the installed resolver. */
  function StepResolveRoute(env: Env, f: Flow): Outcome
  {
    Continue(f.(route :=
      if f.parts.extensions.route.Some? then f.parts.extensions.route
      else if env.layer.routeConfigs.Some? then env.layer.routeConfigs.value.resolve(f.facts.verb, f.facts.path)
      else None))
  }

  function UsagePass(env: Env, f: Flow, p: ResponseProcessor, rules: seq<Handle>): (World, bool)
  {
    var (state, banned) := env.engine.usageRules(
      p.knobs, BehaviorState(f.world.tracker, BansOf(f.world, p.manager)), env.now,
      f.facts.verb + ":" + f.facts.path, f.facts.ipString, rules);
    (WithBans(f.world, p.manager, state.bans).(tracker := state.tracker), banned)
  }

  function StepUsageRules(env: Env, f: Flow): Outcome
  {
    if f.route.None? || f.route.value.behaviorRules == [] || env.layer.processor.None? then Continue(f)
    else
      var (w, banned) := UsagePass(env, f, env.layer.processor.value, f.route.value.behaviorRules);
      if banned then Block(env, f.(world := w), 403, ACTIVITY_BANNED_MESSAGE) else Continue(f.(world := w))
  }

  function StepRouteIps(env: Env, f: Flow): Outcome
  {
    if Bypassed(f.route, "ip") || f.route.None?
       || (f.route.value.ipWhitelist.None? && f.route.value.ipBlacklist.None?)
    then Continue(f)
    else
      var gate := env.engine.parseRouteIps(f.route.value.ipWhitelist, f.route.value.ipBlacklist);
      if gate.None? then Fail(env, f)
      else if f.facts.ip.Some? && gate.value.denies(f.facts.ip.value) then Block(env, f, 403, FORBIDDEN_MESSAGE)
      else Continue(f.(skipIpLists := gate.value.whitelistConfigured))
  }

  function StepRouteCountries(env: Env, f: Flow): Outcome
  {
    if Bypassed(f.route, "ip") || f.route.None?
       || (f.route.value.blockedCountries.None? && f.route.value.whitelistCountries.None?)
       || f.facts.ip.None? || env.layer.geoHandler.None?
    then Continue(f)
    else
      var gate := env.engine.parseCountries(f.route.value.whitelistCountries, f.route.value.blockedCountries);
      if env.engine.countryBlocks(f.facts.ip.value, gate, env.layer.geoHandler.value)
      then Block(env, f, 403, FORBIDDEN_MESSAGE)
      else Continue(f.(skipCountries := gate.whitelist != {}))
  }

  function WithGate(parts: Parts, gate: Option<GateDecision>): Parts
  {
    parts.(extensions := parts.extensions.(gate := gate))
  }

  /** The gate's denial: its own pass inside the gate, then the pass of the caller. */
  function Denial(env: Env, f: Flow): Outcome
  {
    var plain := PlainText(403, ErrorBody(env.layer, 403, FORBIDDEN_MESSAGE));
    var input := InputFromParts(f.parts);
    var (r1, w1) := Pass(env, input, GeneratedLane, plain, BlockHook(env.layer, f.world));
    var (r2, w2) := Pass(env, input, GeneratedLane, r1, w1);
    Done(GateDenied(r2), w2)
  }

  function StepGlobalGate(env: Env, f: Flow): Outcome
  {
    if Bypassed(f.route, "ip") || f.skipIpLists || env.layer.ipGate.None? || f.parts.extensions.clientIp.None?
    then Continue(f)
    else
      match env.layer.ipGate.value.evaluate(f.parts.extensions.clientIp.value)
      case Allowed(decision) => Continue(f.(parts := WithGate(f.parts, Some(decision))))
      case Denied(_) => if env.layer.passiveMode then Continue(f) else Denial(env, f)
  }

  function StepEmergency(env: Env, f: Flow): Outcome
  {
    if env.layer.emergency.None? then Continue(f)
    else
      var (s, answer) := env.layer.emergency.value.decide(f.world.stages.emergency, f.facts);
      var g := f.(world := f.world.(stages := f.world.stages.(emergency := s)));
      if answer.Some? then Block(env, g, answer.value.status, answer.value.body) else Continue(g)
  }

  function HttpsQuestion(facts: Facts, route: Option<RouteConfig>): HttpsInput
  {
    HttpsInput(
      facts.path, facts.scheme,
      if facts.host.Some? then Some(HostOfAuthority(facts.host.value)) else None,
      facts.forwardedProto, HttpsUrl(facts),
      if route.Some? then Some(route.value.requireHttps) else None)
  }

  function RedirectTo(env: Env, f: Flow, r: Redirect): Outcome
  {
    if ValidStatus(r.status) then Finish(env, f, RedirectAnswer(r)) else Done(Panicked, f.world)
  }

  function StepHttps(env: Env, f: Flow): Outcome
  {
    if env.layer.https.Some? then
      var (s, answer) := env.layer.https.value.decide(f.world.stages.https, HttpsQuestion(f.facts, f.route));
      var g := f.(world := f.world.(stages := f.world.stages.(https := s)));
      if answer.Some? then RedirectTo(env, g, answer.value) else Continue(g)
    else if f.route.Some? && f.route.value.requireHttps && f.facts.scheme != "https" && !env.layer.passiveMode then
      RedirectTo(env, f, Redirect(301, HttpsUrl(f.facts)))
    else Continue(f)
  }

  function StepBuffer(env: Env, f: Flow): Outcome
  {
    match Buffer(env.frames, EffectiveCap(env.layer, f.route))
    case Ok(buffered) => Continue(f.(buffered := buffered))
    case Err(TooLarge) => Finish(env, f, Oversize())
    case Err(ReadError) => Fail(env, f)
  }

  function StepRouteHeaders(env: Env, f: Flow): Outcome
  {
    if f.route.None? || !HasHeaderRules(f.route.value.headerRules) then Continue(f)
    else
      var pairs := HeaderPairs(f.parts.headers);
      var answer := env.engine.headersAuth(f.route.value.headerRules, name => FindPair(pairs, name));
      if answer.Some? then Block(env, f, answer.value.status, answer.value.body) else Continue(f)
  }

  function StepHeaders(env: Env, f: Flow): Outcome
  {
    if env.layer.headersAuth.None? then Continue(f)
    else
      var (s, answer) := env.layer.headersAuth.value.decide(
        f.world.stages.headersAuth, f.facts.path, HeaderPairs(f.parts.headers));
      var g := f.(world := f.world.(stages := f.world.stages.(headersAuth := s)));
      if answer.Some? then Block(env, g, answer.value.status, answer.value.body) else Continue(g)
  }

  const REFERRER_MISSING_BODY := "Referrer required"
  const REFERRER_INVALID_BODY := "Invalid referrer"
  const TIME_WINDOW_BODY := "Access not allowed at this time"
  const AGENT_BODY := "User-Agent not allowed"

  function StepRouteReferrer(env: Env, f: Flow): Outcome
  {
    if f.route.None? || f.route.value.requireReferrer.None? then Continue(f)
    else
      match env.engine.referrer(f.facts.referer, f.route.value.requireReferrer.value)
      case ReferrerAllowed => Continue(f)
      case ReferrerMissing => Block(env, f, 403, REFERRER_MISSING_BODY)
      case ReferrerInvalid => Block(env, f, 403, REFERRER_INVALID_BODY)
  }

  function StepReferrer(env: Env, f: Flow): Outcome
  {
    if env.layer.referrer.None? then Continue(f)
    else
      var (s, answer) := env.layer.referrer.value.decide(f.world.stages.referrer, f.facts);
      var g := f.(world := f.world.(stages := f.world.stages.(referrer := s)));
      if answer.Some? then Block(env, g, answer.value.status, answer.value.body) else Continue(g)
  }

  /** A custom check that names no status blocks with the framework default. */
  function CustomStatus(a: CustomAnswer): U16
  {
    if a.status.Some? then a.status.value else 200
  }

  function StepRouteValidators(env: Env, f: Flow): Outcome
  {
    if f.route.None? || f.route.value.customValidators == [] then Continue(f)
    else
      var answer := env.engine.validators(
        f.route.value.customValidators, f.facts, Utf8View(env.engine, f.buffered));
      if answer.Some? then Block(env, f, CustomStatus(answer.value), "") else Continue(f)
  }

  function StepValidators(env: Env, f: Flow): Outcome
  {
    if env.layer.customChecks.None? then Continue(f)
    else
      var (s, answer) := env.layer.customChecks.value.validators(
        f.world.stages.customChecks, f.facts, Utf8View(env.engine, f.buffered));
      var g := f.(world := f.world.(stages := f.world.stages.(customChecks := s)));
      if answer.Some? then Block(env, g, CustomStatus(answer.value), "") else Continue(g)
  }

  function StepRouteWindow(env: Env, f: Flow): Outcome
  {
    if f.route.None? || f.route.value.timeRestrictions.None?
       || env.engine.withinWindow(f.route.value.timeRestrictions.value, env.now)
    then Continue(f)
    else Block(env, f, 403, TIME_WINDOW_BODY)
  }

  function StepWindow(env: Env, f: Flow): Outcome
  {
    if env.layer.timeWindow.None? then Continue(f)
    else
      var (s, answer) := env.layer.timeWindow.value.decide(f.world.stages.timeWindow, f.facts);
      var g := f.(world := f.world.(stages := f.world.stages.(timeWindow := s)));
      if answer.Some? then Block(env, g, answer.value.status, answer.value.body) else Continue(g)
  }

  function StepScan(env: Env, f: Flow): Outcome
  {
    if ScanSkipped(env, f) then Continue(f.(verdict := None))
    else
      match Scan(env, f)
      case NoThreat => Continue(f.(verdict := None))
      case ScanPanic => Fail(env, f)
      case Threat(finding) => Continue(f.(verdict := Some(finding)))
  }

  function BanDecision(env: Env, f: Flow, stage: RateLimitStage): (World, Option<StageResponse>)
  {
    var (table, answer) := env.engine.decideBans(stage.knobs, BansOf(f.world, stage.manager), env.now, f.facts.ip);
    (WithBans(f.world, stage.manager, table), answer)
  }

  /** The stage must have been built: a missing one is the `expect` that panics. */
  function StepBans(env: Env, f: Flow): Outcome
  {
    if env.layer.stage.None? then Done(Panicked, f.world)
    else if Bypassed(f.route, "ip_ban") then Continue(f)
    else
      var (w, answer) := BanDecision(env, f, env.layer.stage.value);
      var g := f.(world := w);
      if answer.Some? then Finish(env, g, StageAnswer(answer.value)) else Continue(g)
  }

  function StepGeo(env: Env, f: Flow): Outcome
  {
    if Bypassed(f.route, "ip") || f.skipCountries || env.layer.geoBlocking.None? then Continue(f)
    else
      var (s, answer) := env.layer.geoBlocking.value.decide(f.world.stages.geo, f.facts.ip, f.facts.gate);
      var g := f.(world := f.world.(stages := f.world.stages.(geo := s)));
      if answer.Some? then Block(env, g, answer.value.status, answer.value.body) else Continue(g)
  }

  function CloudDecision(env: Env, f: Flow, selectors: Option<Selectors>): Outcome
  {
    if env.layer.cloud.None? then Continue(f)
    else
      var (s, answer) := env.layer.cloud.value.decide(f.world.stages.cloud, f.facts.ip, f.facts.gate, selectors);
      var g := f.(world := f.world.(stages := f.world.stages.(cloud := s)));
      if answer.Some? then Block(env, g, answer.value.status, answer.value.body) else Continue(g)
  }

  /** The route's provider list replaces the global one; an invalid one fails secure. */
  function StepCloud(env: Env, f: Flow): Outcome
  {
    if Bypassed(f.route, "clouds") then Continue(f)
    else if f.route.Some? && f.route.value.blockCloudProviders != [] then
      var selectors := env.engine.parseSelectors(f.route.value.blockCloudProviders);
      if selectors.None? then Fail(env, f) else CloudDecision(env, f, selectors)
    else CloudDecision(env, f, None)
  }

  predicate Unfiltered(gate: Option<GateDecision>)
  {
    gate.Some? && (gate.value.isWhitelisted || gate.value.isExempt)
  }

  function StepRouteAgents(env: Env, f: Flow): Outcome
  {
    if f.route.None? || f.route.value.blockedUserAgents == [] || Unfiltered(f.facts.gate) then Continue(f)
    else
      var filter := env.engine.userAgentFilter(f.route.value.blockedUserAgents);
      if filter.None? then Fail(env, f)
      else if filter.value.isBlocked(if f.facts.userAgent.Some? then f.facts.userAgent.value else "")
      then Block(env, f, 403, AGENT_BODY)
      else Continue(f)
  }

  function StepAgent(env: Env, f: Flow): Outcome
  {
    if env.layer.userAgent.None? then Continue(f)
    else
      var (s, answer) := env.layer.userAgent.value.decide(
        f.world.stages.userAgent,
        UserAgentInput(f.facts.ip, f.facts.gate, f.facts.path, f.facts.userAgent, f.verdict));
      var g := f.(world := f.world.(stages := f.world.stages.(userAgent := s)));
      if answer.Some? then Block(env, g, answer.value.status, answer.value.body) else Continue(g)
  }

  /** The carrier's tier wins over the extension; an invalid carrier tier fails secure. */
  function StepCarrierTiers(env: Env, f: Flow): Outcome
  {
    if f.route.Some? && f.route.value.rateLimits.InvalidTier? then Fail(env, f)
    else if f.route.Some? && f.route.value.rateLimits.limits.Some?
    then Continue(f.(tiers := f.route.value.rateLimits.limits))
    else Continue(f.(tiers := f.parts.extensions.tiers))
  }

  function TierQuestion(f: Flow): TierInput
  {
    TierInput(f.facts.ip, f.facts.path, f.tiers, f.parts.extensions.gate, f.verdict)
  }

  function TierDecision(env: Env, f: Flow, stage: RateLimitStage): (World, Option<StageResponse>)
  {
    var (stores, answer) := env.engine.decideTiers(
      stage.knobs, TierStores(f.world.windows, f.world.counts, BansOf(f.world, stage.manager)), env.now,
      TierQuestion(f));
    (WithBans(f.world, stage.manager, stores.bans).(
       windows := stores.windows, counts := stores.counts,
       journal := f.world.journal.(consults := f.world.journal.consults + 1)),
     answer)
  }

  function StepTiers(env: Env, f: Flow): Outcome
  {
    if env.layer.stage.None? then Done(Panicked, f.world)
    else if Bypassed(f.route, "rate_limit") then Continue(f)
    else
      var (w, answer) := TierDecision(env, f, env.layer.stage.value);
      var g := f.(world := w);
      if answer.Some? then Finish(env, g, StageAnswer(answer.value)) else Continue(g)
  }

  function StepThreat(env: Env, f: Flow): Outcome
  {
    if env.layer.stage.None? then Done(Panicked, f.world)
    else if f.verdict.None? || env.layer.stage.value.knobs.passiveMode then Continue(f)
    else
      Block(env, f.(world := BlockHook(env.layer, f.world)), 400, ErrorBody(env.layer, 400, BLOCKED_MESSAGE))
  }

  function StepCustomRequest(env: Env, f: Flow): Outcome
  {
    if env.layer.customChecks.None? then Continue(f)
    else
      var (s, answer) := env.layer.customChecks.value.request(
        f.world.stages.customChecks, f.facts, Utf8View(env.engine, f.buffered));
      var g := f.(world := f.world.(stages := f.world.stages.(customChecks := s)));
      if answer.Some? then Block(env, g, CustomStatus(answer.value), "") else Continue(g)
  }

  function Step(arm: Arm, env: Env, f: Flow): Outcome
  {
    match arm
    case ExcludedPath => StepExcludedPath(env, f)
    case Preflight => StepPreflight(env, f)
    case ResolveRoute => StepResolveRoute(env, f)
    case UsageRules => StepUsageRules(env, f)
    case RouteIps => StepRouteIps(env, f)
    case RouteCountries => StepRouteCountries(env, f)
    case GlobalGate => StepGlobalGate(env, f)
    case EmergencyMode => StepEmergency(env, f)
    case HttpsArm => StepHttps(env, f)
    case BufferArm => StepBuffer(env, f)
    case RouteHeaders => StepRouteHeaders(env, f)
    case HeadersArm => StepHeaders(env, f)
    case RouteReferrer => StepRouteReferrer(env, f)
    case ReferrerArm => StepReferrer(env, f)
    case RouteValidators => StepRouteValidators(env, f)
    case Validators => StepValidators(env, f)
    case RouteWindow => StepRouteWindow(env, f)
    case WindowArm => StepWindow(env, f)
    case ScanArm => StepScan(env, f)
    case BanArm => StepBans(env, f)
    case GeoArm => StepGeo(env, f)
    case CloudArm => StepCloud(env, f)
    case RouteAgents => StepRouteAgents(env, f)
    case AgentArm => StepAgent(env, f)
    case CarrierTiers => StepCarrierTiers(env, f)
    case TierArm => StepTiers(env, f)
    case ThreatBlock => StepThreat(env, f)
    case CustomRequestArm => StepCustomRequest(env, f)
    case ForwardArm => ForwardCall(env, f, Rebuilt(f.buffered))
  }

  /** Run the arms in order; the first answer ends the run. */
  function Run(arms: seq<Arm>, env: Env, f: Flow): Outcome
  {
    if arms == [] then Continue(f)
    else
      match Step(arms[0], env, f)
      case Continue(g) => Run(arms[1..], env, g)
      case Done(exit, w) => Done(exit, w)
  }

  function Start(parts: Parts, w: World): Flow
  {
    Flow(parts, Extract(parts), None, false, false, None, None, None, w)
  }

  /** One call of the guarded service. */
  function Call(env: Env, parts: Parts, w: World): Outcome
  {
    Run(ORDER, env, Start(parts, w))
  }

  // ---- running ------------------------------------------------------------------------

  /** Running a concatenation is running its parts. */
  lemma {:induction false} RunAppend(a: seq<Arm>, b: seq<Arm>, env: Env, f: Flow)
    ensures Run(a + b, env, f) ==
            match Run(a, env, f) { case Continue(g) => Run(b, env, g) case Done(e, w) => Done(e, w) }
  {
    hide Step;
    if a == [] {
      assert a + b == b;
    } else {
      assert (a + b)[0] == a[0] && (a + b)[1..] == a[1..] + b;
      match Step(a[0], env, f) {
        case Continue(g) => RunAppend(a[1..], b, env, g);
        case Done(_, _) =>
      }
    }
  }

  /** Running one arm and then the others. */
  lemma RunFirst(x: Arm, rest: seq<Arm>, env: Env, f: Flow)
    ensures Run([x] + rest, env, f) ==
            if Step(x, env, f).Continue? then Run(rest, env, Step(x, env, f).flow) else Step(x, env, f)
  {
    hide Step;
    assert ([x] + rest)[0] == x && ([x] + rest)[1..] == rest;
  }

  /** Which function each of these arms is. */
  lemma DispatchEnds(env: Env, f: Flow)
    ensures Step(ExcludedPath, env, f) == StepExcludedPath(env, f)
    ensures Step(Preflight, env, f) == StepPreflight(env, f)
    ensures Step(ResolveRoute, env, f) == StepResolveRoute(env, f)
    ensures Step(GlobalGate, env, f) == StepGlobalGate(env, f)
  {
    hide StepExcludedPath, StepPreflight, StepResolveRoute, StepUsageRules, StepRouteIps,
      StepRouteCountries, StepGlobalGate, StepEmergency, StepHttps, StepBuffer, StepRouteHeaders,
      StepHeaders, StepRouteReferrer, StepReferrer, StepRouteValidators, StepValidators,
      StepRouteWindow, StepWindow, StepScan, StepBans, StepGeo, StepCloud, StepRouteAgents,
      StepAgent, StepCarrierTiers, StepTiers, StepThreat, StepCustomRequest, ForwardCall;
  }

  /** Which function each of these arms is. */
  lemma DispatchScan(env: Env, f: Flow)
    ensures Step(ScanArm, env, f) == StepScan(env, f)
    ensures Step(BanArm, env, f) == StepBans(env, f)
    ensures Step(GeoArm, env, f) == StepGeo(env, f)
  {
    hide StepExcludedPath, StepPreflight, StepResolveRoute, StepUsageRules, StepRouteIps,
      StepRouteCountries, StepGlobalGate, StepEmergency, StepHttps, StepBuffer, StepRouteHeaders,
      StepHeaders, StepRouteReferrer, StepReferrer, StepRouteValidators, StepValidators,
      StepRouteWindow, StepWindow, StepScan, StepBans, StepGeo, StepCloud, StepRouteAgents,
      StepAgent, StepCarrierTiers, StepTiers, StepThreat, StepCustomRequest, ForwardCall;
  }

  /** Which function each of these arms is. */
  lemma DispatchCloud(env: Env, f: Flow)
    ensures Step(CloudArm, env, f) == StepCloud(env, f)
    ensures Step(RouteAgents, env, f) == StepRouteAgents(env, f)
    ensures Step(AgentArm, env, f) == StepAgent(env, f)
    ensures Step(CarrierTiers, env, f) == StepCarrierTiers(env, f)
  {
    hide StepExcludedPath, StepPreflight, StepResolveRoute, StepUsageRules, StepRouteIps,
      StepRouteCountries, StepGlobalGate, StepEmergency, StepHttps, StepBuffer, StepRouteHeaders,
      StepHeaders, StepRouteReferrer, StepReferrer, StepRouteValidators, StepValidators,
      StepRouteWindow, StepWindow, StepScan, StepBans, StepGeo, StepCloud, StepRouteAgents,
      StepAgent, StepCarrierTiers, StepTiers, StepThreat, StepCustomRequest, ForwardCall;
  }

  /** Which function each of these arms is. */
  lemma DispatchSettlement(env: Env, f: Flow)
    ensures Step(TierArm, env, f) == StepTiers(env, f)
    ensures Step(ThreatBlock, env, f) == StepThreat(env, f)
    ensures Step(CustomRequestArm, env, f) == StepCustomRequest(env, f)
  {
    hide StepExcludedPath, StepPreflight, StepResolveRoute, StepUsageRules, StepRouteIps,
      StepRouteCountries, StepGlobalGate, StepEmergency, StepHttps, StepBuffer, StepRouteHeaders,
      StepHeaders, StepRouteReferrer, StepReferrer, StepRouteValidators, StepValidators,
      StepRouteWindow, StepWindow, StepScan, StepBans, StepGeo, StepCloud, StepRouteAgents,
      StepAgent, StepCarrierTiers, StepTiers, StepThreat, StepCustomRequest, ForwardCall;
  }

  lemma ForwardAnswers(env: Env, f: Flow)
    ensures Run([ForwardArm], env, f).Done?
  {
    hide Pass;
    assert [ForwardArm][0] == ForwardArm;
  }

  /** Every call ends: the last arm always answers. */
  lemma CallAnswers(env: Env, parts: Parts, w: World)
    ensures Call(env, parts, w).Done?
  {
    hide Step;
    var front := ADMISSION + CONTENT + SCREENING + SETTLEMENT[..4];
    assert SETTLEMENT == SETTLEMENT[..4] + [ForwardArm];
    assert ORDER == front + [ForwardArm];
    RunAppend(front, [ForwardArm], env, Start(parts, w));
    if Run(front, env, Start(parts, w)).Continue? {
      ForwardAnswers(env, Run(front, env, Start(parts, w)).flow);
    }
  }

  /** The two readings of the processor's input agree on every request. */
  lemma InputsAgree(parts: Parts)
    ensures InputFromParts(parts) == InputFromFacts(Extract(parts))
  {
  }
}
