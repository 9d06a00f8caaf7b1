/**
 How a call ends. Every answer that costs a response pass ends in one: whatever arm
 it comes from, the exit and the stores are those the last pass returned, and the
 pass ran over the client's own request.
 */
module Endings {
  import opened BodyBuffer
  import opened Engine
  import opened Frames
  import opened Http
  import opened Layer
  import opened Octets
  import opened Pipeline
  import opened Runs
  import opened Wrappers

  /** An exit that costs a pass. */
  predicate Costs(exit: Exit)
  {
    exit.Blocked? || exit.GateDenied? || exit.Forwarded?
  }

  function LaneOf(exit: Exit): Lane
  {
    if exit.Forwarded? then ForwardedLane else GeneratedLane
  }

  /** This exit in these stores is what a pass over the request made of a response. */
  ghost predicate EndsIn(env: Env, parts: Parts, o: Outcome, response: Response, v: World)
  {
    && o.Done? && Costs(o.exit)
    && (o.exit.response, o.world) == Pass(env, InputFromParts(parts), LaneOf(o.exit), response, v)
  }

  lemma FinishEnds(env: Env, f: Flow, response: Response) returns (r: Response, v: World)
    ensures EndsIn(env, f.parts, Finish(env, f, response), r, v)
  {
    hide Pass;
    r, v := response, f.world;
  }

  lemma BlockEnds(env: Env, f: Flow, status: U16, body: string) returns (r: Response, v: World)
    ensures Block(env, f, status, body).Done?
    ensures Costs(Block(env, f, status, body).exit) ==> EndsIn(env, f.parts, Block(env, f, status, body), r, v)
  {
    hide Finish;
    r, v := FinishEnds(env, f, PlainText(status, body));
  }

  lemma UsageRulesEnds(env: Env, f: Flow) returns (r: Response, v: World)
    requires StepUsageRules(env, f).Done? && Costs(StepUsageRules(env, f).exit)
    ensures EndsIn(env, f.parts, StepUsageRules(env, f), r, v)
  {
    hide Block, EndsIn, UsagePass;
    var (w, _) := UsagePass(env, f, env.layer.processor.value, f.route.value.behaviorRules);
    r, v := BlockEnds(env, f.(world := w), 403, ACTIVITY_BANNED_MESSAGE);
  }

  lemma RouteIpsEnds(env: Env, f: Flow) returns (r: Response, v: World)
    requires StepRouteIps(env, f).Done? && Costs(StepRouteIps(env, f).exit)
    ensures EndsIn(env, f.parts, StepRouteIps(env, f), r, v)
  {
    hide Block, Finish, EndsIn;
    if env.engine.parseRouteIps(f.route.value.ipWhitelist, f.route.value.ipBlacklist).None? {
      r, v := FinishEnds(env, f, Failure());
    } else {
      r, v := BlockEnds(env, f, 403, FORBIDDEN_MESSAGE);
    }
  }

  lemma RouteCountriesEnds(env: Env, f: Flow) returns (r: Response, v: World)
    requires StepRouteCountries(env, f).Done? && Costs(StepRouteCountries(env, f).exit)
    ensures EndsIn(env, f.parts, StepRouteCountries(env, f), r, v)
  {
    hide Block, EndsIn;
    r, v := BlockEnds(env, f, 403, FORBIDDEN_MESSAGE);
  }

  /** A denial ends in the second of its two passes. */
  lemma GlobalGateEnds(env: Env, f: Flow) returns (r: Response, v: World)
    requires StepGlobalGate(env, f).Done?
    ensures EndsIn(env, f.parts, StepGlobalGate(env, f), r, v)
  {
    hide Pass;
    var plain := PlainText(403, ErrorBody(env.layer, 403, FORBIDDEN_MESSAGE));
    r, v := Pass(env, InputFromParts(f.parts), GeneratedLane, plain, BlockHook(env.layer, f.world)).0,
            Pass(env, InputFromParts(f.parts), GeneratedLane, plain, BlockHook(env.layer, f.world)).1;
  }

  lemma EmergencyEnds(env: Env, f: Flow) returns (r: Response, v: World)
    requires StepEmergency(env, f).Done? && Costs(StepEmergency(env, f).exit)
    ensures EndsIn(env, f.parts, StepEmergency(env, f), r, v)
  {
    hide Block, EndsIn;
    var (s, answer) := env.layer.emergency.value.decide(
      f.world.stages.emergency, f.facts);
    var g := f.(world := f.world.(stages := f.world.stages.(emergency := s)));
    r, v := BlockEnds(env, g, answer.value.status, answer.value.body);
  }

  lemma HttpsEnds(env: Env, f: Flow) returns (r: Response, v: World)
    requires StepHttps(env, f).Done? && Costs(StepHttps(env, f).exit)
    ensures EndsIn(env, f.parts, StepHttps(env, f), r, v)
  {
    hide Finish, EndsIn, HttpsQuestion, HttpsUrl, RedirectAnswer;
    if env.layer.https.Some? {
      var (s, answer) := env.layer.https.value.decide(f.world.stages.https, HttpsQuestion(f.facts, f.route));
      r, v := FinishEnds(env, f.(world := f.world.(stages := f.world.stages.(https := s))), RedirectAnswer(answer.value));
    } else {
      r, v := FinishEnds(env, f, RedirectAnswer(Redirect(301, HttpsUrl(f.facts))));
    }
  }

  lemma BufferEnds(env: Env, f: Flow) returns (r: Response, v: World)
    requires StepBuffer(env, f).Done? && Costs(StepBuffer(env, f).exit)
    ensures EndsIn(env, f.parts, StepBuffer(env, f), r, v)
  {
    hide Finish, EndsIn, Buffer, EffectiveCap;
    if Buffer(env.frames, EffectiveCap(env.layer, f.route)) == Err(TooLarge) {
      r, v := FinishEnds(env, f, Oversize());
    } else {
      r, v := FinishEnds(env, f, Failure());
    }
  }

  lemma RouteHeadersEnds(env: Env, f: Flow) returns (r: Response, v: World)
    requires StepRouteHeaders(env, f).Done? && Costs(StepRouteHeaders(env, f).exit)
    ensures EndsIn(env, f.parts, StepRouteHeaders(env, f), r, v)
  {
    hide Block, EndsIn, HeaderPairs, FindPair, HasHeaderRules;
    var pairs := HeaderPairs(f.parts.headers);
    var answer := env.engine.headersAuth(f.route.value.headerRules, name => FindPair(pairs, name));
    r, v := BlockEnds(env, f, answer.value.status, answer.value.body);
  }

  lemma HeadersEnds(env: Env, f: Flow) returns (r: Response, v: World)
    requires StepHeaders(env, f).Done? && Costs(StepHeaders(env, f).exit)
    ensures EndsIn(env, f.parts, StepHeaders(env, f), r, v)
  {
    hide Block, EndsIn;
    var (s, answer) := env.layer.headersAuth.value.decide(
      f.world.stages.headersAuth, f.facts.path, HeaderPairs(f.parts.headers));
    var g := f.(world := f.world.(stages := f.world.stages.(headersAuth := s)));
    r, v := BlockEnds(env, g, answer.value.status, answer.value.body);
  }

  lemma RouteReferrerEnds(env: Env, f: Flow) returns (r: Response, v: World)
    requires StepRouteReferrer(env, f).Done? && Costs(StepRouteReferrer(env, f).exit)
    ensures EndsIn(env, f.parts, StepRouteReferrer(env, f), r, v)
  {
    hide Block, EndsIn;
    if env.engine.referrer(f.facts.referer, f.route.value.requireReferrer.value).ReferrerMissing? {
      r, v := BlockEnds(env, f, 403, REFERRER_MISSING_BODY);
    } else {
      r, v := BlockEnds(env, f, 403, REFERRER_INVALID_BODY);
    }
  }

  lemma ReferrerEnds(env: Env, f: Flow) returns (r: Response, v: World)
    requires StepReferrer(env, f).Done? && Costs(StepReferrer(env, f).exit)
    ensures EndsIn(env, f.parts, StepReferrer(env, f), r, v)
  {
    hide Block, EndsIn;
    var (s, answer) := env.layer.referrer.value.decide(
      f.world.stages.referrer, f.facts);
    var g := f.(world := f.world.(stages := f.world.stages.(referrer := s)));
    r, v := BlockEnds(env, g, answer.value.status, answer.value.body);
  }

  lemma RouteValidatorsEnds(env: Env, f: Flow) returns (r: Response, v: World)
    requires StepRouteValidators(env, f).Done? && Costs(StepRouteValidators(env, f).exit)
    ensures EndsIn(env, f.parts, StepRouteValidators(env, f), r, v)
  {
    hide Block, EndsIn, Utf8View;
    var answer := env.engine.validators(
      f.route.value.customValidators, f.facts, Utf8View(env.engine, f.buffered));
    r, v := BlockEnds(env, f, CustomStatus(answer.value), "");
  }

  lemma ValidatorsEnds(env: Env, f: Flow) returns (r: Response, v: World)
    requires StepValidators(env, f).Done? && Costs(StepValidators(env, f).exit)
    ensures EndsIn(env, f.parts, StepValidators(env, f), r, v)
  {
    hide Block, EndsIn;
    var (s, answer) := env.layer.customChecks.value.validators(
      f.world.stages.customChecks, f.facts, Utf8View(env.engine, f.buffered));
    var g := f.(world := f.world.(stages := f.world.stages.(customChecks := s)));
    r, v := BlockEnds(env, g, CustomStatus(answer.value), "");
  }

  lemma RouteWindowEnds(env: Env, f: Flow) returns (r: Response, v: World)
    requires StepRouteWindow(env, f).Done? && Costs(StepRouteWindow(env, f).exit)
    ensures EndsIn(env, f.parts, StepRouteWindow(env, f), r, v)
  {
    hide Block, EndsIn;
    r, v := BlockEnds(env, f, 403, TIME_WINDOW_BODY);
  }

  lemma WindowEnds(env: Env, f: Flow) returns (r: Response, v: World)
    requires StepWindow(env, f).Done? && Costs(StepWindow(env, f).exit)
    ensures EndsIn(env, f.parts, StepWindow(env, f), r, v)
  {
    hide Block, EndsIn;
    var (s, answer) := env.layer.timeWindow.value.decide(
      f.world.stages.timeWindow, f.facts);
    var g := f.(world := f.world.(stages := f.world.stages.(timeWindow := s)));
    r, v := BlockEnds(env, g, answer.value.status, answer.value.body);
  }

  lemma ScanArmEnds(env: Env, f: Flow) returns (r: Response, v: World)
    requires StepScan(env, f).Done? && Costs(StepScan(env, f).exit)
    ensures EndsIn(env, f.parts, StepScan(env, f), r, v)
  {
    hide Finish, EndsIn, Scan, ScanSkipped;
    r, v := FinishEnds(env, f, Failure());
  }

  lemma BansEnds(env: Env, f: Flow) returns (r: Response, v: World)
    requires StepBans(env, f).Done? && Costs(StepBans(env, f).exit)
    ensures EndsIn(env, f.parts, StepBans(env, f), r, v)
  {
    hide Finish, EndsIn, BanDecision, StageAnswer;
    var (w, answer) := BanDecision(env, f, env.layer.stage.value);
    r, v := FinishEnds(env, f.(world := w), StageAnswer(answer.value));
  }

  lemma GeoEnds(env: Env, f: Flow) returns (r: Response, v: World)
    requires StepGeo(env, f).Done? && Costs(StepGeo(env, f).exit)
    ensures EndsIn(env, f.parts, StepGeo(env, f), r, v)
  {
    hide Block, EndsIn;
    var (s, answer) := env.layer.geoBlocking.value.decide(
      f.world.stages.geo, f.facts.ip, f.facts.gate);
    var g := f.(world := f.world.(stages := f.world.stages.(geo := s)));
    r, v := BlockEnds(env, g, answer.value.status, answer.value.body);
  }

  lemma CloudDecisionEnds(env: Env, f: Flow, selectors: Option<Selectors>) returns (r: Response, v: World)
    requires CloudDecision(env, f, selectors).Done? && Costs(CloudDecision(env, f, selectors).exit)
    ensures EndsIn(env, f.parts, CloudDecision(env, f, selectors), r, v)
  {
    hide Block, EndsIn;
    var (s, answer) := env.layer.cloud.value.decide(f.world.stages.cloud, f.facts.ip, f.facts.gate, selectors);
    var g := f.(world := f.world.(stages := f.world.stages.(cloud := s)));
    r, v := BlockEnds(env, g, answer.value.status, answer.value.body);
  }

  lemma CloudEnds(env: Env, f: Flow) returns (r: Response, v: World)
    requires StepCloud(env, f).Done? && Costs(StepCloud(env, f).exit)
    ensures EndsIn(env, f.parts, StepCloud(env, f), r, v)
  {
    hide Finish, CloudDecision, EndsIn;
    if f.route.Some? && f.route.value.blockCloudProviders != [] {
      var selectors := env.engine.parseSelectors(f.route.value.blockCloudProviders);
      if selectors.None? {
        r, v := FinishEnds(env, f, Failure());
      } else {
        r, v := CloudDecisionEnds(env, f, selectors);
      }
    } else {
      r, v := CloudDecisionEnds(env, f, None);
    }
  }

  lemma RouteAgentsEnds(env: Env, f: Flow) returns (r: Response, v: World)
    requires StepRouteAgents(env, f).Done? && Costs(StepRouteAgents(env, f).exit)
    ensures EndsIn(env, f.parts, StepRouteAgents(env, f), r, v)
  {
    hide Block, Finish, EndsIn;
    if env.engine.userAgentFilter(f.route.value.blockedUserAgents).None? {
      r, v := FinishEnds(env, f, Failure());
    } else {
      r, v := BlockEnds(env, f, 403, AGENT_BODY);
    }
  }

  lemma AgentEnds(env: Env, f: Flow) returns (r: Response, v: World)
    requires StepAgent(env, f).Done? && Costs(StepAgent(env, f).exit)
    ensures EndsIn(env, f.parts, StepAgent(env, f), r, v)
  {
    hide Block, EndsIn;
    var (s, answer) := env.layer.userAgent.value.decide(
      f.world.stages.userAgent, UserAgentInput(f.facts.ip, f.facts.gate, f.facts.path, f.facts.userAgent, f.verdict));
    var g := f.(world := f.world.(stages := f.world.stages.(userAgent := s)));
    r, v := BlockEnds(env, g, answer.value.status, answer.value.body);
  }

  lemma CarrierTiersEnds(env: Env, f: Flow) returns (r: Response, v: World)
    requires StepCarrierTiers(env, f).Done? && Costs(StepCarrierTiers(env, f).exit)
    ensures EndsIn(env, f.parts, StepCarrierTiers(env, f), r, v)
  {
    hide Finish, EndsIn;
    r, v := FinishEnds(env, f, Failure());
  }

  lemma TiersEnds(env: Env, f: Flow) returns (r: Response, v: World)
    requires StepTiers(env, f).Done? && Costs(StepTiers(env, f).exit)
    ensures EndsIn(env, f.parts, StepTiers(env, f), r, v)
  {
    hide Finish, EndsIn, TierDecision, StageAnswer;
    var (w, answer) := TierDecision(env, f, env.layer.stage.value);
    r, v := FinishEnds(env, f.(world := w), StageAnswer(answer.value));
  }

  lemma ThreatEnds(env: Env, f: Flow) returns (r: Response, v: World)
    requires StepThreat(env, f).Done? && Costs(StepThreat(env, f).exit)
    ensures EndsIn(env, f.parts, StepThreat(env, f), r, v)
  {
    hide Block, EndsIn, ErrorBody;
    r, v := BlockEnds(env, f.(world := BlockHook(env.layer, f.world)), 400, ErrorBody(env.layer, 400, BLOCKED_MESSAGE));
  }

  lemma CustomRequestEnds(env: Env, f: Flow) returns (r: Response, v: World)
    requires StepCustomRequest(env, f).Done? && Costs(StepCustomRequest(env, f).exit)
    ensures EndsIn(env, f.parts, StepCustomRequest(env, f), r, v)
  {
    hide Block, EndsIn;
    var (s, answer) := env.layer.customChecks.value.request(
      f.world.stages.customChecks, f.facts, Utf8View(env.engine, f.buffered));
    var g := f.(world := f.world.(stages := f.world.stages.(customChecks := s)));
    r, v := BlockEnds(env, g, CustomStatus(answer.value), "");
  }

  lemma ForwardEnds(env: Env, f: Flow, body: Octets) returns (r: Response, v: World)
    requires InputFromFacts(f.facts) == InputFromParts(f.parts)
    requires ForwardCall(env, f, body).Done? && Costs(ForwardCall(env, f, body).exit)
    ensures EndsIn(env, f.parts, ForwardCall(env, f, body), r, v)
  {
    hide Pass;
    v := f.world.(received := f.world.received + [Request(f.parts, body)]);
    r := env.inner.answer(v.received).response;
  }

  /** A preflight answer costs no pass, and a resolved route is no answer. */
  lemma FreeOfCharge(env: Env, f: Flow)
    ensures StepPreflight(env, f).Done? ==> !Costs(StepPreflight(env, f).exit)
    ensures StepResolveRoute(env, f).Continue?
  {
    hide InsertHeaders, PreflightPairs, FindPair, EqIgnoreCase;
  }

  /** Any arm that answers, on a flow whose facts are those of its request. */
  lemma StepEnds(arm: Arm, env: Env, f: Flow) returns (r: Response, v: World)
    requires InputFromFacts(f.facts) == InputFromParts(f.parts)
    requires Step(arm, env, f).Done? && Costs(Step(arm, env, f).exit)
    ensures EndsIn(env, f.parts, Step(arm, env, f), r, v)
  {
    hide StepPreflight, StepResolveRoute, StepUsageRules, StepRouteIps,
      StepRouteCountries, StepGlobalGate, StepEmergency, StepHttps, StepBuffer, StepRouteHeaders,
      StepHeaders, StepRouteReferrer, StepReferrer, StepRouteValidators, StepValidators,
      StepRouteWindow, StepWindow, StepScan, StepBans, StepGeo, StepCloud, StepRouteAgents,
      StepAgent, StepCarrierTiers, StepTiers, StepThreat, StepCustomRequest, ForwardCall, EndsIn, InputFromFacts,
      InputFromParts;
    FreeOfCharge(env, f);
    match arm {
      case ExcludedPath => r, v := ForwardEnds(env, f, []);
      case UsageRules => r, v := UsageRulesEnds(env, f);
      case RouteIps => r, v := RouteIpsEnds(env, f);
      case RouteCountries => r, v := RouteCountriesEnds(env, f);
      case GlobalGate => r, v := GlobalGateEnds(env, f);
      case EmergencyMode => r, v := EmergencyEnds(env, f);
      case HttpsArm => r, v := HttpsEnds(env, f);
      case BufferArm => r, v := BufferEnds(env, f);
      case RouteHeaders => r, v := RouteHeadersEnds(env, f);
      case HeadersArm => r, v := HeadersEnds(env, f);
      case RouteReferrer => r, v := RouteReferrerEnds(env, f);
      case ReferrerArm => r, v := ReferrerEnds(env, f);
      case RouteValidators => r, v := RouteValidatorsEnds(env, f);
      case Validators => r, v := ValidatorsEnds(env, f);
      case RouteWindow => r, v := RouteWindowEnds(env, f);
      case WindowArm => r, v := WindowEnds(env, f);
      case ScanArm => r, v := ScanArmEnds(env, f);
      case BanArm => r, v := BansEnds(env, f);
      case GeoArm => r, v := GeoEnds(env, f);
      case CloudArm => r, v := CloudEnds(env, f);
      case RouteAgents => r, v := RouteAgentsEnds(env, f);
      case AgentArm => r, v := AgentEnds(env, f);
      case CarrierTiers => r, v := CarrierTiersEnds(env, f);
      case TierArm => r, v := TiersEnds(env, f);
      case ThreatBlock => r, v := ThreatEnds(env, f);
      case CustomRequestArm => r, v := CustomRequestEnds(env, f);
      case ForwardArm => r, v := ForwardEnds(env, f, Rebuilt(f.buffered));
    }
  }

  /** A passing arm keeps what the processor is told about the request. */
  lemma InputStays(arm: Arm, env: Env, f: Flow)
    requires Step(arm, env, f).Continue?
    ensures Step(arm, env, f).flow.facts == f.facts
    ensures InputFromParts(Step(arm, env, f).flow.parts) == InputFromParts(f.parts)
  {
    hide StepPreflight, StepResolveRoute, StepUsageRules, StepRouteIps, StepRouteCountries,
      StepEmergency, StepHttps, StepBuffer, StepRouteHeaders, StepHeaders, StepRouteReferrer,
      StepReferrer, StepRouteValidators, StepValidators, StepRouteWindow, StepWindow, StepScan,
      StepBans, StepGeo, StepCloud, StepRouteAgents, StepAgent, StepGlobalGate,
      StepCarrierTiers, StepTiers, StepThreat, StepCustomRequest, Pass, Remembers, Answers;
    if arm != ForwardArm && (arm == ExcludedPath ==> f.facts.path !in env.layer.excludePaths) {
      StepFrame(arm, env, f);
    }
  }

  lemma EndsInSame(env: Env, parts: Parts, q: Parts, o: Outcome, r: Response, v: World)
    requires EndsIn(env, q, o, r, v) && InputFromParts(q) == InputFromParts(parts)
    ensures EndsIn(env, parts, o, r, v)
  {
    hide Pass, InputFromParts;
  }

  lemma {:induction false} RunEnds(arms: seq<Arm>, env: Env, f: Flow) returns (r: Response, v: World)
    requires InputFromFacts(f.facts) == InputFromParts(f.parts)
    requires Run(arms, env, f).Done? && Costs(Run(arms, env, f).exit)
    ensures EndsIn(env, f.parts, Run(arms, env, f), r, v)
  {
    hide Step, EndsIn, InputFromFacts, InputFromParts;
    if Step(arms[0], env, f).Done? {
      r, v := StepEnds(arms[0], env, f);
    } else {
      var g := Step(arms[0], env, f).flow;
      InputStays(arms[0], env, f);
      r, v := RunEnds(arms[1..], env, g);
      EndsInSame(env, f.parts, g.parts, Run(arms, env, f), r, v);
    }
  }

  /**
   Every call that costs a response pass ends in one. Whether the wrapped service
   answered, the gate denied or any other arm blocked, the exit's response and the
   stores are what the last pass made, over the client's own request; `r` and `v` are
   what that pass was given.
   */
  lemma CallEndsInAPass(env: Env, parts: Parts, w: World) returns (r: Response, v: World)
    requires Call(env, parts, w).Done? && Costs(Call(env, parts, w).exit)
    ensures EndsIn(env, parts, Call(env, parts, w), r, v)
  {
    hide Run, EndsIn;
    InputsAgree(parts);
    r, v := RunEnds(ORDER, env, Start(parts, w));
  }
}
