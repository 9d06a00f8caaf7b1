/**
 What each arm of the pipeline leaves alone, whether it lets the request pass or
 answers it, and what that means for a whole run of arms.
 */
module Frames {
  import opened BanTables
  import opened BodyBuffer
  import opened Engine
  import opened Http
  import opened Layer
  import opened Octets
  import opened Pipeline
  import opened Wrappers

  /** How many response passes an exit costs when a processor is installed. */
  function PassesOf(exit: Exit): nat
  {
    match exit
    case Preflighted(_) => 0
    case GateDenied(_) => 2
    case Blocked(_) => 1
    case Forwarded(_) => 1
    case InnerError(_) => 0
    case Panicked => 0
  }

  function PassCost(layer: GuardLayer, exit: Exit): nat
  {
    if layer.processor.Some? then PassesOf(exit) else 0
  }

  function EventCost(layer: GuardLayer, exit: Exit): nat
  {
    if exit.Forwarded? && layer.processor.Some? && layer.processor.value.knobs.securityHeaders == Some(true)
       && layer.events.Some?
    then 1 else 0
  }

  /** The block hook needs somebody to hear it and the log knobs to compose what it says. */
  function HookCost(layer: GuardLayer): nat
  {
    if layer.onBlock.Some? && layer.observability.Some? then 1 else 0
  }

  /** The stores only the tiers write. */
  ghost predicate SameLimits(v: World, w: World)
  {
    v.windows == w.windows && v.counts == w.counts && v.journal.consults == w.journal.consults
  }

  /** Where ban tables change hands while the request is still under way. */
  predicate TouchesBans(arm: Arm) { arm == UsageRules || arm == BanArm || arm == TierArm }

  /** The two arms that report what they block. */
  predicate Reports(arm: Arm) { arm == GlobalGate || arm == ThreatBlock }

  /** The engine permitting, no running ban is lost between two worlds. */
  ghost predicate BansKept(env: Env, v: World, w: World)
  {
    KeepsRunningBans(env.engine) ==> KeepsAll(env.now, v.bans, w.bans)
  }

  /** Only the response processor wrote bans between two worlds. */
  ghost predicate RuleBansOnly(env: Env, v: World, w: World)
  {
    OnlyProcessorBans(env.layer.processor, v.bans, w.bans)
  }

  lemma WorldsAlike(env: Env, w: World)
    ensures BansKept(env, w, w) && RuleBansOnly(env, w, w)
  {
    KeepsAllSame(env.now, w.bans);
    OnlyProcessorBansSame(env.layer.processor, w.bans);
  }

  /** Each stage's memory is written by its own arm; the custom checks have two. */
  predicate Remembers(arm: Arm, s: StageStates, t: StageStates)
  {
    && (arm != EmergencyMode ==> t.emergency == s.emergency)
    && (arm != HttpsArm ==> t.https == s.https)
    && (arm != HeadersArm ==> t.headersAuth == s.headersAuth)
    && (arm != ReferrerArm ==> t.referrer == s.referrer)
    && (arm != Validators && arm != CustomRequestArm ==> t.customChecks == s.customChecks)
    && (arm != WindowArm ==> t.timeWindow == s.timeWindow)
    && (arm != GeoArm ==> t.geo == s.geo)
    && (arm != CloudArm ==> t.cloud == s.cloud)
    && (arm != AgentArm ==> t.userAgent == s.userAgent)
  }

  /** A passing arm writes only the local it is about. */
  ghost predicate PassesOn(arm: Arm, f: Flow, g: Flow)
  {
    && g.facts == f.facts
    && (arm != GlobalGate ==> g.parts == f.parts)
    && g.parts == WithGate(f.parts, g.parts.extensions.gate)
    && (arm != ResolveRoute ==> g.route == f.route)
    && (arm != BufferArm ==> g.buffered == f.buffered)
    && (arm != ScanArm ==> g.verdict == f.verdict)
    && (arm != CarrierTiers ==> g.tiers == f.tiers)
    && (arm != RouteIps ==> g.skipIpLists == f.skipIpLists)
    && (arm != RouteCountries ==> g.skipCountries == f.skipCountries)
    && (arm != TierArm ==> SameLimits(f.world, g.world))
    && (!TouchesBans(arm) ==> g.world.bans == f.world.bans)
    && Remembers(arm, f.world.stages, g.world.stages)
    && g.world.received == f.world.received
    && g.world.journal.passes == f.world.journal.passes
    && g.world.journal.headerEvents == f.world.journal.headerEvents
    && g.world.journal.blockHooks == f.world.journal.blockHooks
  }

  /** An answer of the guard itself: the passes it costs, and nothing forwarded. */
  ghost predicate Answers(env: Env, arm: Arm, v: World, exit: Exit, w: World)
  {
    && !Reaches(exit)
    && w.received == v.received
    && (arm != TierArm ==> SameLimits(v, w))
    && (!TouchesBans(arm) ==> BansKept(env, v, w) && RuleBansOnly(env, v, w))
    && w.journal.passes == v.journal.passes + PassCost(env.layer, exit)
    && w.journal.headerEvents == v.journal.headerEvents
    && (!Reports(arm) ==> w.journal.blockHooks == v.journal.blockHooks)
  }

  lemma ProcessedFrame(env: Env, p: ResponseProcessor, input: ProcessorInput, status: U16, w: World)
    requires env.layer.processor == Some(p)
    ensures var w' := Processed(env, p, input, status, w).0;
      && SameLimits(w, w') && w'.received == w.received && w'.stages == w.stages
      && w'.journal == w.journal.(passes := w.journal.passes + 1)
      && BansKept(env, w, w') && RuleBansOnly(env, w, w')
  {
    var (state, bits) := env.engine.process(
      p.knobs, BehaviorState(w.tracker, BansOf(w, p.manager)), env.now,
      RequestBits(input.verb, input.urlPath, input.clientIp, input.origin), status);
    if KeepsRunningBans(env.engine) {
      assert KeepsTable(env.now, BehaviorState(w.tracker, BansOf(w, p.manager)).bans, state.bans);
      KeepsAllReplace(env.now, w, p.manager, state.bans);
    }
  }

  lemma ModifiedFrame(layer: GuardLayer, bits: ResponseBits, w: World)
    ensures var w' := Modified(layer, bits, w).0;
      w' == w.(journal := w.journal.(errorHooks := w'.journal.errorHooks))
  {
  }

  lemma PassFrame(env: Env, input: ProcessorInput, lane: Lane, response: Response, w: World)
    ensures var (r, w') := Pass(env, input, lane, response, w);
      && SameLimits(w, w') && w'.received == w.received && w'.stages == w.stages
      && r.body == response.body
      && BansKept(env, w, w') && RuleBansOnly(env, w, w')
      && w'.journal.passes == w.journal.passes + (if env.layer.processor.Some? then 1 else 0)
      && w'.journal.headerEvents == w.journal.headerEvents
           + (if env.layer.processor.Some? && EmitsHeaderEvent(env.layer, env.layer.processor.value, lane) then 1 else 0)
      && w'.journal.blockHooks == w.journal.blockHooks
  {
    hide Processed, Modified, InsertHeaders, KeepsAll, KeepsRunningBans, OnlyProcessorBans;
    WorldsAlike(env, w);
    if env.layer.processor.Some? {
      var p := env.layer.processor.value;
      ProcessedFrame(env, p, input, response.status, w);
      var (w1, bits1) := Processed(env, p, input, response.status, w);
      ModifiedFrame(env.layer, bits1, HeaderEvent(env.layer, p, lane, w1));
    }
  }

  /** The guard's own answer from a flow. */
  ghost predicate AnswersFrom(env: Env, f: Flow, o: Outcome)
  {
    && o.Done? && (o.exit.Blocked? || o.exit.Panicked?)
    && o.world.received == f.world.received && SameLimits(f.world, o.world)
    && BansKept(env, f.world, o.world) && RuleBansOnly(env, f.world, o.world)
    && o.world.journal.passes == f.world.journal.passes + PassCost(env.layer, o.exit)
    && o.world.journal.headerEvents == f.world.journal.headerEvents
    && o.world.journal.blockHooks == f.world.journal.blockHooks
  }

  lemma FinishFrame(env: Env, f: Flow, response: Response)
    ensures AnswersFrom(env, f, Finish(env, f, response))
  {
    hide Pass, KeepsAll, KeepsRunningBans, OnlyProcessorBans;
    PassFrame(env, InputFromParts(f.parts), GeneratedLane, response, f.world);
  }

  lemma BlockFrame(env: Env, f: Flow, status: U16, body: string)
    ensures AnswersFrom(env, f, Block(env, f, status, body))
  {
    hide Finish, KeepsAll, KeepsRunningBans, OnlyProcessorBans;
    WorldsAlike(env, f.world);
    if ValidStatus(status) { FinishFrame(env, f, PlainText(status, body)); }
  }

  lemma DenialFrame(env: Env, f: Flow)
    ensures var o := Denial(env, f);
      && o.Done? && o.exit.GateDenied? && Answers(env, GlobalGate, f.world, o.exit, o.world)
      && o.world.journal.blockHooks == f.world.journal.blockHooks + HookCost(env.layer)
  {
    hide Pass, KeepsAll, KeepsRunningBans, OnlyProcessorBans;
    var plain := PlainText(403, ErrorBody(env.layer, 403, FORBIDDEN_MESSAGE));
    var input := InputFromParts(f.parts);
    var w0 := BlockHook(env.layer, f.world);
    PassFrame(env, input, GeneratedLane, plain, w0);
    var (r1, w1) := Pass(env, input, GeneratedLane, plain, w0);
    PassFrame(env, input, GeneratedLane, r1, w1);
    var w2 := Pass(env, input, GeneratedLane, r1, w1).1;
    OnlyProcessorBansChains(env.layer.processor, w0.bans, w1.bans, w2.bans);
    if KeepsRunningBans(env.engine) { KeepsAllChains(env.now, w0.bans, w1.bans, w2.bans); }
  }

  /** What an arm other than the two forwarding ones does. */
  ghost predicate Framed(arm: Arm, env: Env, f: Flow, o: Outcome)
  {
    match o
    case Continue(g) => PassesOn(arm, f, g)
    case Done(exit, w) => Answers(env, arm, f.world, exit, w)
  }

  lemma ExcludedPathFrame(env: Env, f: Flow)
    requires f.facts.path !in env.layer.excludePaths
    ensures Framed(ExcludedPath, env, f, StepExcludedPath(env, f))
  {
    hide Finish, Block, Pass, KeepsAll, KeepsRunningBans, OnlyProcessorBans;
  }

  lemma PreflightFrame(env: Env, f: Flow)
    ensures Framed(Preflight, env, f, StepPreflight(env, f))
  {
    hide Finish, Block, Pass, KeepsAll, KeepsRunningBans, OnlyProcessorBans;
    hide InsertHeaders, PreflightPairs, FindPair, EqIgnoreCase;
    WorldsAlike(env, f.world);
  }

  lemma ResolveRouteFrame(env: Env, f: Flow)
    ensures Framed(ResolveRoute, env, f, StepResolveRoute(env, f))
  {
    hide Finish, Block, Pass, KeepsAll, KeepsRunningBans, OnlyProcessorBans;
  }

  lemma UsageRulesFrame(env: Env, f: Flow)
    ensures Framed(UsageRules, env, f, StepUsageRules(env, f))
  {
    hide Finish, Block, Pass, KeepsAll, KeepsRunningBans, OnlyProcessorBans;
    if f.route.Some? && env.layer.processor.Some? {
      var (w, banned) := UsagePass(env, f, env.layer.processor.value, f.route.value.behaviorRules);
      BlockFrame(env, f.(world := w), 403, ACTIVITY_BANNED_MESSAGE);
    }
  }

  lemma RouteIpsFrame(env: Env, f: Flow)
    ensures Framed(RouteIps, env, f, StepRouteIps(env, f))
  {
    hide Finish, Block, Pass, KeepsAll, KeepsRunningBans, OnlyProcessorBans;
    FinishFrame(env, f, Failure());
    BlockFrame(env, f, 403, FORBIDDEN_MESSAGE);
  }

  lemma RouteCountriesFrame(env: Env, f: Flow)
    ensures Framed(RouteCountries, env, f, StepRouteCountries(env, f))
  {
    hide Finish, Block, Pass, KeepsAll, KeepsRunningBans, OnlyProcessorBans;
    BlockFrame(env, f, 403, FORBIDDEN_MESSAGE);
  }

  lemma GlobalGateFrame(env: Env, f: Flow)
    ensures Framed(GlobalGate, env, f, StepGlobalGate(env, f))
  {
    hide Finish, Block, Pass, KeepsAll, KeepsRunningBans, OnlyProcessorBans;
    hide Denial;
    DenialFrame(env, f);
  }

  lemma EmergencyFrame(env: Env, f: Flow)
    ensures Framed(EmergencyMode, env, f, StepEmergency(env, f))
  {
    hide Finish, Block, Pass, KeepsAll, KeepsRunningBans, OnlyProcessorBans;
    if env.layer.emergency.Some? {
      var (s, answer) := env.layer.emergency.value.decide(f.world.stages.emergency, f.facts);
      var g := f.(world := f.world.(stages := f.world.stages.(emergency := s)));
      if answer.Some? { BlockFrame(env, g, answer.value.status, answer.value.body); }
    }
  }

  lemma HttpsFrame(env: Env, f: Flow)
    ensures Framed(HttpsArm, env, f, StepHttps(env, f))
  {
    hide Finish, Block, Pass, KeepsAll, KeepsRunningBans, OnlyProcessorBans;
    WorldsAlike(env, f.world);
    if env.layer.https.Some? {
      var (s, answer) := env.layer.https.value.decide(f.world.stages.https, HttpsQuestion(f.facts, f.route));
      var g := f.(world := f.world.(stages := f.world.stages.(https := s)));
      if answer.Some? && ValidStatus(answer.value.status) { FinishFrame(env, g, RedirectAnswer(answer.value)); }
    } else {
      FinishFrame(env, f, RedirectAnswer(Redirect(301, HttpsUrl(f.facts))));
    }
  }

  lemma BufferFrame(env: Env, f: Flow)
    ensures Framed(BufferArm, env, f, StepBuffer(env, f))
  {
    hide Finish, Block, Pass, KeepsAll, KeepsRunningBans, OnlyProcessorBans;
    FinishFrame(env, f, Failure());
    FinishFrame(env, f, Oversize());
  }

  lemma RouteHeadersFrame(env: Env, f: Flow)
    ensures Framed(RouteHeaders, env, f, StepRouteHeaders(env, f))
  {
    hide Finish, Block, Pass, KeepsAll, KeepsRunningBans, OnlyProcessorBans;
    if f.route.Some? {
      var pairs := HeaderPairs(f.parts.headers);
      var answer := env.engine.headersAuth(f.route.value.headerRules, name => FindPair(pairs, name));
      if answer.Some? { BlockFrame(env, f, answer.value.status, answer.value.body); }
    }
  }

  lemma HeadersFrame(env: Env, f: Flow)
    ensures Framed(HeadersArm, env, f, StepHeaders(env, f))
  {
    hide Finish, Block, Pass, KeepsAll, KeepsRunningBans, OnlyProcessorBans;
    if env.layer.headersAuth.Some? {
      var (s, answer) := env.layer.headersAuth.value.decide(
        f.world.stages.headersAuth, f.facts.path, HeaderPairs(f.parts.headers));
      var g := f.(world := f.world.(stages := f.world.stages.(headersAuth := s)));
      if answer.Some? { BlockFrame(env, g, answer.value.status, answer.value.body); }
    }
  }

  lemma RouteReferrerFrame(env: Env, f: Flow)
    ensures Framed(RouteReferrer, env, f, StepRouteReferrer(env, f))
  {
    hide Finish, Block, Pass, KeepsAll, KeepsRunningBans, OnlyProcessorBans;
    BlockFrame(env, f, 403, REFERRER_MISSING_BODY);
    BlockFrame(env, f, 403, REFERRER_INVALID_BODY);
  }

  lemma ReferrerFrame(env: Env, f: Flow)
    ensures Framed(ReferrerArm, env, f, StepReferrer(env, f))
  {
    hide Finish, Block, Pass, KeepsAll, KeepsRunningBans, OnlyProcessorBans;
    if env.layer.referrer.Some? {
      var (s, answer) := env.layer.referrer.value.decide(f.world.stages.referrer, f.facts);
      var g := f.(world := f.world.(stages := f.world.stages.(referrer := s)));
      if answer.Some? { BlockFrame(env, g, answer.value.status, answer.value.body); }
    }
  }

  lemma RouteValidatorsFrame(env: Env, f: Flow)
    ensures Framed(RouteValidators, env, f, StepRouteValidators(env, f))
  {
    hide Finish, Block, Pass, KeepsAll, KeepsRunningBans, OnlyProcessorBans;
    if f.route.Some? {
      var answer := env.engine.validators(
        f.route.value.customValidators, f.facts, Utf8View(env.engine, f.buffered));
      if answer.Some? { BlockFrame(env, f, CustomStatus(answer.value), ""); }
    }
  }

  lemma ValidatorsFrame(env: Env, f: Flow)
    ensures Framed(Validators, env, f, StepValidators(env, f))
  {
    hide Finish, Block, Pass, KeepsAll, KeepsRunningBans, OnlyProcessorBans;
    if env.layer.customChecks.Some? {
      var (s, answer) := env.layer.customChecks.value.validators(
        f.world.stages.customChecks, f.facts, Utf8View(env.engine, f.buffered));
      var g := f.(world := f.world.(stages := f.world.stages.(customChecks := s)));
      if answer.Some? { BlockFrame(env, g, CustomStatus(answer.value), ""); }
    }
  }

  lemma RouteWindowFrame(env: Env, f: Flow)
    ensures Framed(RouteWindow, env, f, StepRouteWindow(env, f))
  {
    hide Finish, Block, Pass, KeepsAll, KeepsRunningBans, OnlyProcessorBans;
    BlockFrame(env, f, 403, TIME_WINDOW_BODY);
  }

  lemma WindowFrame(env: Env, f: Flow)
    ensures Framed(WindowArm, env, f, StepWindow(env, f))
  {
    hide Finish, Block, Pass, KeepsAll, KeepsRunningBans, OnlyProcessorBans;
    if env.layer.timeWindow.Some? {
      var (s, answer) := env.layer.timeWindow.value.decide(f.world.stages.timeWindow, f.facts);
      var g := f.(world := f.world.(stages := f.world.stages.(timeWindow := s)));
      if answer.Some? { BlockFrame(env, g, answer.value.status, answer.value.body); }
    }
  }

  lemma ScanFrame(env: Env, f: Flow)
    ensures Framed(ScanArm, env, f, StepScan(env, f))
  {
    hide Finish, Scan, ScanSkipped, KeepsAll, KeepsRunningBans, OnlyProcessorBans;
    FinishFrame(env, f, Failure());
  }

  lemma BanDecisionFrame(env: Env, f: Flow, stage: RateLimitStage)
    ensures var w := BanDecision(env, f, stage).0; w == f.world.(bans := w.bans)
  {
  }

  lemma BansFrame(env: Env, f: Flow)
    ensures Framed(BanArm, env, f, StepBans(env, f))
  {
    hide Finish, BanDecision, Bypassed, KeepsAll, KeepsRunningBans, OnlyProcessorBans;
    hide StageAnswer;
    if env.layer.stage.Some? {
      BanDecisionFrame(env, f, env.layer.stage.value);
      var (w, answer) := BanDecision(env, f, env.layer.stage.value);
      if answer.Some? { FinishFrame(env, f.(world := w), StageAnswer(answer.value)); }
    }
  }

  lemma GeoFrame(env: Env, f: Flow)
    ensures Framed(GeoArm, env, f, StepGeo(env, f))
  {
    hide Finish, Block, Pass, KeepsAll, KeepsRunningBans, OnlyProcessorBans;
    if env.layer.geoBlocking.Some? {
      var (s, answer) := env.layer.geoBlocking.value.decide(f.world.stages.geo, f.facts.ip, f.facts.gate);
      var g := f.(world := f.world.(stages := f.world.stages.(geo := s)));
      if answer.Some? { BlockFrame(env, g, answer.value.status, answer.value.body); }
    }
  }

  lemma CloudDecisionFrame(env: Env, f: Flow, selectors: Option<Selectors>)
    ensures Framed(CloudArm, env, f, CloudDecision(env, f, selectors))
  {
    hide Block, KeepsAll, KeepsRunningBans, OnlyProcessorBans;
    if env.layer.cloud.Some? {
      var (s, answer) := env.layer.cloud.value.decide(f.world.stages.cloud, f.facts.ip, f.facts.gate, selectors);
      var g := f.(world := f.world.(stages := f.world.stages.(cloud := s)));
      if answer.Some? { BlockFrame(env, g, answer.value.status, answer.value.body); }
    }
  }

  lemma CloudFrame(env: Env, f: Flow)
    ensures Framed(CloudArm, env, f, StepCloud(env, f))
  {
    hide Finish, Block, Pass, KeepsAll, KeepsRunningBans, OnlyProcessorBans;
    hide CloudDecision;
    FinishFrame(env, f, Failure());
    CloudDecisionFrame(env, f, None);
    if f.route.Some? {
      CloudDecisionFrame(env, f, env.engine.parseSelectors(f.route.value.blockCloudProviders));
    }
  }

  lemma RouteAgentsFrame(env: Env, f: Flow)
    ensures Framed(RouteAgents, env, f, StepRouteAgents(env, f))
  {
    hide Finish, Block, Pass, KeepsAll, KeepsRunningBans, OnlyProcessorBans;
    FinishFrame(env, f, Failure());
    BlockFrame(env, f, 403, AGENT_BODY);
  }

  lemma AgentFrame(env: Env, f: Flow)
    ensures Framed(AgentArm, env, f, StepAgent(env, f))
  {
    hide Finish, Block, Pass, KeepsAll, KeepsRunningBans, OnlyProcessorBans;
    if env.layer.userAgent.Some? {
      var (s, answer) := env.layer.userAgent.value.decide(
        f.world.stages.userAgent,
        UserAgentInput(f.facts.ip, f.facts.gate, f.facts.path, f.facts.userAgent, f.verdict));
      var g := f.(world := f.world.(stages := f.world.stages.(userAgent := s)));
      if answer.Some? { BlockFrame(env, g, answer.value.status, answer.value.body); }
    }
  }

  lemma CarrierTiersFrame(env: Env, f: Flow)
    ensures Framed(CarrierTiers, env, f, StepCarrierTiers(env, f))
  {
    hide Finish, Block, Pass, KeepsAll, KeepsRunningBans, OnlyProcessorBans;
    FinishFrame(env, f, Failure());
  }

  lemma TierDecisionFrame(env: Env, f: Flow, stage: RateLimitStage)
    ensures var w := TierDecision(env, f, stage).0;
      && w.received == f.world.received
      && w.journal == f.world.journal.(consults := w.journal.consults) && w.stages == f.world.stages
  {
  }

  lemma TiersFrame(env: Env, f: Flow)
    ensures Framed(TierArm, env, f, StepTiers(env, f))
  {
    hide Finish, TierDecision, KeepsAll, KeepsRunningBans, OnlyProcessorBans;
    hide StageAnswer;
    if env.layer.stage.Some? {
      TierDecisionFrame(env, f, env.layer.stage.value);
      var (w, answer) := TierDecision(env, f, env.layer.stage.value);
      if answer.Some? { FinishFrame(env, f.(world := w), StageAnswer(answer.value)); }
    }
  }

  lemma ThreatFrame(env: Env, f: Flow)
    ensures Framed(ThreatBlock, env, f, StepThreat(env, f))
  {
    hide Finish, Block, Pass, KeepsAll, KeepsRunningBans, OnlyProcessorBans;
    WorldsAlike(env, f.world);
    BlockFrame(env, f.(world := BlockHook(env.layer, f.world)), 400, ErrorBody(env.layer, 400, BLOCKED_MESSAGE));
  }

  lemma CustomRequestFrame(env: Env, f: Flow)
    ensures Framed(CustomRequestArm, env, f, StepCustomRequest(env, f))
  {
    hide Finish, Block, Pass, KeepsAll, KeepsRunningBans, OnlyProcessorBans;
    if env.layer.customChecks.Some? {
      var (s, answer) := env.layer.customChecks.value.request(
        f.world.stages.customChecks, f.facts, Utf8View(env.engine, f.buffered));
      var g := f.(world := f.world.(stages := f.world.stages.(customChecks := s)));
      if answer.Some? { BlockFrame(env, g, CustomStatus(answer.value), ""); }
    }
  }

  /** Every arm but the last keeps its frame; the excluded-path arm when the path is not excluded. */
  lemma StepFrame(arm: Arm, env: Env, f: Flow)
    requires arm != ForwardArm
    requires arm == ExcludedPath ==> f.facts.path !in env.layer.excludePaths
    ensures Framed(arm, env, f, Step(arm, env, f))
  {
    hide StepExcludedPath, StepPreflight, StepResolveRoute, StepUsageRules, StepRouteIps,
      StepRouteCountries, StepGlobalGate, StepEmergency, StepHttps, StepBuffer, StepRouteHeaders,
      StepHeaders, StepRouteReferrer, StepReferrer, StepRouteValidators, StepValidators,
      StepRouteWindow, StepWindow, StepScan, StepBans, StepGeo, StepCloud, StepRouteAgents,
      StepAgent, StepCarrierTiers, StepTiers, StepThreat, StepCustomRequest, KeepsAll,
      KeepsRunningBans, OnlyProcessorBans;
    match arm {
      case ExcludedPath => ExcludedPathFrame(env, f);
      case Preflight => PreflightFrame(env, f);
      case ResolveRoute => ResolveRouteFrame(env, f);
      case UsageRules => UsageRulesFrame(env, f);
      case RouteIps => RouteIpsFrame(env, f);
      case RouteCountries => RouteCountriesFrame(env, f);
      case GlobalGate => GlobalGateFrame(env, f);
      case EmergencyMode => EmergencyFrame(env, f);
      case HttpsArm => HttpsFrame(env, f);
      case BufferArm => BufferFrame(env, f);
      case RouteHeaders => RouteHeadersFrame(env, f);
      case HeadersArm => HeadersFrame(env, f);
      case RouteReferrer => RouteReferrerFrame(env, f);
      case ReferrerArm => ReferrerFrame(env, f);
      case RouteValidators => RouteValidatorsFrame(env, f);
      case Validators => ValidatorsFrame(env, f);
      case RouteWindow => RouteWindowFrame(env, f);
      case WindowArm => WindowFrame(env, f);
      case ScanArm => ScanFrame(env, f);
      case BanArm => BansFrame(env, f);
      case GeoArm => GeoFrame(env, f);
      case CloudArm => CloudFrame(env, f);
      case RouteAgents => RouteAgentsFrame(env, f);
      case AgentArm => AgentFrame(env, f);
      case CarrierTiers => CarrierTiersFrame(env, f);
      case TierArm => TiersFrame(env, f);
      case ThreatBlock => ThreatFrame(env, f);
      case CustomRequestArm => CustomRequestFrame(env, f);
    }
  }
}
