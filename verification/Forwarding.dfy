/**
 Exactly which requests are forwarded: those that meet what every arm asks and to
 which no stage has an answer. Both are conditions on the request, the configuration
 and the stores on arrival, so the whole pipeline comes down to one conjunction.
 */
module Forwarding {
  import opened Admission
  import opened BodyBuffer
  import opened Engine
  import opened Frames
  import opened Http
  import opened Layer
  import opened Octets
  import opened Pipeline
  import opened Questions
  import opened Readings
  import opened Runs
  import opened Wrappers

  // ---- the conditions ----------------------------------------------------------------------------

  /** The usage rules of the route ban the visitor. */
  predicate UsageBans(env: Env, parts: Parts, w: World)
  {
    UsageOf(env, parts, w).1
  }

  predicate SelectorsParse(e: Engine, r: RouteConfig)
  {
    !Bypassed(Some(r), "clouds") && r.blockCloudProviders != [] ==> e.parseSelectors(r.blockCloudProviders).Some?
  }

  /** An enabled scan ends without a panic. */
  predicate ScanEnds(env: Env, parts: Parts)
  {
    DetectionOff(env, parts) || !ScanOf(env, parts).ScanPanic?
  }

  /** No finding, or a stage that lets findings pass. */
  predicate ThreatAllowed(env: Env, parts: Parts)
  {
    env.layer.stage.Some? && (FindingOf(env, parts).None? || env.layer.stage.value.knobs.passiveMode)
  }

  /** The whole body arrives, within the limit of its route or of the layer. */
  ghost predicate BodyFits(env: Env, parts: Parts)
  {
    && (forall k: nat | k < |env.frames| :: !env.frames[k].Broken?)
    && WithinLimit(env.layer, RouteOf(env.layer, parts), |Content(env.frames)|)
  }

  lemma FittingBuffers(env: Env, parts: Parts)
    ensures BodyFits(env, parts) <==> Buffer(env.frames, EffectiveCap(env.layer, RouteOf(env.layer, parts))).Ok?
  {
    hide RouteOf, EffectiveCap, WithinLimit, Buffer, Content;
    var cap := EffectiveCap(env.layer, RouteOf(env.layer, parts));
    CapIsTheLimit(env.layer, RouteOf(env.layer, parts), |Content(env.frames)|);
    if Buffer(env.frames, cap).Ok? { BufferedIsContent(env.frames, cap); }
    if BodyFits(env, parts) { BufferWithoutErrors(env.frames, cap); }
  }

  /** What an arm asks of the request itself. */
  ghost predicate Meets(arm: Arm, env: Env, parts: Parts, w: World)
  {
    var route, facts := RouteOf(env.layer, parts), FactsSent(parts);
    match arm
    case UsageRules => !UsageBans(env, parts, w)
    case RouteIps => route.Some? ==> AddressAllowed(env.engine, route.value, facts.ip)
    case RouteCountries => route.Some? ==> CountryAllowed(env, route.value, facts.ip)
    case GlobalGate => GateOpen(env, parts)
    case HttpsArm => route.Some? ==> SchemeAllowed(env.layer, route.value, facts.scheme)
    case BufferArm => BodyFits(env, parts)
    case RouteHeaders => route.Some? ==> HeadersMet(env.engine, route.value, parts.headers)
    case RouteReferrer => route.Some? ==> ReferrerMet(env.engine, route.value, facts.referer)
    case RouteValidators => route.Some? ==> ValidatorsMet(env.engine, route.value, facts, Content(env.frames))
    case RouteWindow => route.Some? ==> WindowMet(env, route.value)
    case ScanArm => ScanEnds(env, parts)
    case CloudArm => route.Some? ==> SelectorsParse(env.engine, route.value)
    case RouteAgents => route.Some? ==> AgentAllowed(env.engine, route.value, facts.gate, facts.userAgent)
    case CarrierTiers => route.Some? ==> !route.value.rateLimits.InvalidTier?
    case ThreatBlock => ThreatAllowed(env, parts)
    case _ => true
  }

  /** The request meets what the arm asks, and the stage behind it is quiet. */
  ghost predicate Lets(arm: Arm, env: Env, parts: Parts, w: World)
  {
    Meets(arm, env, parts, w) && Quiet(arm, env, parts, w)
  }

  // ---- arms with a condition -----------------------------------------------------------------------

  lemma HttpsPasses(env: Env, parts: Parts, w: World, f: Flow)
    requires Faces(HttpsArm, env, parts, w, f)
    ensures Step(HttpsArm, env, f).Continue? <==> Lets(HttpsArm, env, parts, w)
  {
    hide Pass, HttpsQuestion, HttpsAsked, HttpsUrl, RedirectAnswer, RouteOf, FactsSent;
    HttpsIsAsked(parts, f.route);
  }

  lemma BufferPasses(env: Env, f: Flow)
    ensures Step(BufferArm, env, f).Continue? <==> Buffer(env.frames, EffectiveCap(env.layer, f.route)).Ok?
  {
    hide Pass, Buffer, EffectiveCap;
  }

  lemma ScanPasses(env: Env, f: Flow)
    ensures Step(ScanArm, env, f).Continue? <==> ScanSkipped(env, f) || !Scan(env, f).ScanPanic?
  {
    hide Fail, Scan, ScanSkipped;
    AnswersEnd(env, f, 403, "");
  }

  lemma CloudDecides(env: Env, f: Flow, selectors: Option<Selectors>)
    ensures CloudDecision(env, f, selectors).Continue?
            <==> (env.layer.cloud.Some? ==>
                    env.layer.cloud.value.decide(f.world.stages.cloud, f.facts.ip, f.facts.gate, selectors).1.None?)
  {
    hide Pass;
  }

  lemma CloudPasses(env: Env, parts: Parts, w: World, f: Flow)
    requires Faces(CloudArm, env, parts, w, f)
    ensures Step(CloudArm, env, f).Continue? <==> Lets(CloudArm, env, parts, w)
  {
    hide Pass, CloudDecision, RouteOf, FactsSent;
    CloudDecides(env, f, SelectorsOf(env.engine, f.route));
  }

  lemma ThreatPasses(env: Env, f: Flow)
    ensures Step(ThreatBlock, env, f).Continue?
            <==> env.layer.stage.Some? && (f.verdict.None? || env.layer.stage.value.knobs.passiveMode)
  {
    hide Block;
    AnswersEnd(env, f.(world := BlockHook(env.layer, f.world)), 400, ErrorBody(env.layer, 400, BLOCKED_MESSAGE));
  }

  // ---- one arm more --------------------------------------------------------------------------------

  lemma PassesNext(n: nat, env: Env, parts: Parts, w: World)
    requires n < |BEFORE_FORWARD|
    ensures Passes(n + 1, env, parts, w)
            <==> Passes(n, env, parts, w) && Step(BEFORE_FORWARD[n], env, FlowAt(n, env, parts, w)).Continue?
  {
    hide Step;
    var f := Start(parts, w);
    assert BEFORE_FORWARD[..n + 1] == BEFORE_FORWARD[..n] + [BEFORE_FORWARD[n]];
    RunAppend(BEFORE_FORWARD[..n], [BEFORE_FORWARD[n]], env, f);
    if Run(BEFORE_FORWARD[..n], env, f).Continue? {
      assert [BEFORE_FORWARD[n]][1..] == [];
    }
  }

  lemma FacesAt(n: nat, env: Env, parts: Parts, w: World)
    requires 3 <= n < ALL && Passes(n, env, parts, w)
    ensures Faces(BEFORE_FORWARD[n], env, parts, w, FlowAt(n, env, parts, w))
  {
    hide Run, Memory, RouteOf, FactsSent;
    PrefixFlow(n, env, parts, w);
    ArmStandsInPlace(n);
    if n < ALL - 1 { MemoryAt(n, env, parts, w); }
  }

  lemma AdmissionExactly(n: nat, env: Env, parts: Parts, w: World)
    requires 3 <= n <= GATE_AT && Passes(n, env, parts, w)
    ensures Step(BEFORE_FORWARD[n], env, FlowAt(n, env, parts, w)).Continue? <==> Lets(BEFORE_FORWARD[n], env, parts, w)
  {
    hide Step, Run, AddressAllowed, CountryAllowed, GateOpen, UsageOf, Fresh, FactsSent, RouteOf;
    PrefixFlow(n, env, parts, w);
    PassedIsFresh(n, env, parts, w);
    RoutedAt(env, parts, w);
    var f := FlowAt(n, env, parts, w);
    match n {
      case 3 => UsageArm(env, f);
      case 4 => AddressArm(env, f);
      case 5 => CountryArm(env, f);
      case 6 =>
        FlowAtGate(env, parts, w);
        GateArm(env, f, parts);
    }
  }

  /** These arms have no stage behind them. */
  lemma NoStage(arm: Arm, env: Env, parts: Parts, w: World)
    requires arm in {BufferArm, RouteHeaders, RouteReferrer, RouteValidators, RouteWindow, ScanArm, RouteAgents,
                     CarrierTiers, ThreatBlock}
    ensures Quiet(arm, env, parts, w)
  {
  }

  /** These arms are nothing but a stage. */
  lemma StageAlone(arm: Arm, env: Env, parts: Parts, w: World)
    requires arm in {EmergencyMode, HeadersArm, ReferrerArm, Validators, WindowArm, BanArm, GeoArm, AgentArm, TierArm,
                     CustomRequestArm}
    ensures Meets(arm, env, parts, w)
  {
  }

  lemma EarlyStageExactly(n: nat, env: Env, parts: Parts, w: World)
    requires n in {7, 11, 13, 17} && Passes(n, env, parts, w)
    ensures Step(BEFORE_FORWARD[n], env, FlowAt(n, env, parts, w)).Continue? <==> Lets(BEFORE_FORWARD[n], env, parts, w)
  {
    hide Step, Run, Faces, Quiet, Meets, Excluded;
    FacesAt(n, env, parts, w);
    assert BEFORE_FORWARD[n] in {EmergencyMode, HeadersArm, ReferrerArm, WindowArm};
    EarlyStageQuiet(BEFORE_FORWARD[n], env, parts, w, FlowAt(n, env, parts, w));
    StageAlone(BEFORE_FORWARD[n], env, parts, w);
  }

  lemma FrontExactly(n: nat, env: Env, parts: Parts, w: World)
    requires n in {8, 9, 10, 12} && Passes(n, env, parts, w)
    ensures Step(BEFORE_FORWARD[n], env, FlowAt(n, env, parts, w)).Continue? <==> Lets(BEFORE_FORWARD[n], env, parts, w)
  {
    hide Step, Run, SchemeAllowed, Buffer, EffectiveCap, HeadersMet, ReferrerMet, FactsSent, RouteOf, Memory, Quiet;
    FacesAt(n, env, parts, w);
    var f := FlowAt(n, env, parts, w);
    match n {
      case 8 => HttpsPasses(env, parts, w, f);
      case 9 =>
        BufferPasses(env, f);
        FittingBuffers(env, parts);
        NoStage(BufferArm, env, parts, w);
      case 10 =>
        HeadersArmPasses(env, f);
        NoStage(RouteHeaders, env, parts, w);
      case 12 =>
        ReferrerArmPasses(env, f);
        NoStage(RouteReferrer, env, parts, w);
    }
  }

  lemma BodyExactly(n: nat, env: Env, parts: Parts, w: World)
    requires n in {14, 16} && Passes(n, env, parts, w)
    ensures Step(BEFORE_FORWARD[n], env, FlowAt(n, env, parts, w)).Continue? <==> Lets(BEFORE_FORWARD[n], env, parts, w)
  {
    hide Step, Run, ValidatorsMet, WindowMet, FactsSent, RouteOf, Content, Frozen, Quiet, Excluded;
    PrefixFlow(n, env, parts, w);
    BodyAt(n, env, parts, w);
    var f := FlowAt(n, env, parts, w);
    if n == 14 {
      ValidatorsArmPasses(env, f);
      NoStage(RouteValidators, env, parts, w);
    } else {
      WindowArmPasses(env, f);
      NoStage(RouteWindow, env, parts, w);
    }
  }

  /** Both custom checks. */
  lemma ChecksExactly(n: nat, env: Env, parts: Parts, w: World)
    requires n in {15, 27} && Passes(n, env, parts, w)
    ensures Step(BEFORE_FORWARD[n], env, FlowAt(n, env, parts, w)).Continue? <==> Lets(BEFORE_FORWARD[n], env, parts, w)
  {
    hide Step, Run, FactsSent, RouteOf, Content, Frozen, Quiet, Meets, ChecksRemember, Excluded;
    PrefixFlow(n, env, parts, w);
    BodyAt(n, env, parts, w);
    if n == 15 {
      MemoryAt(n, env, parts, w);
    } else {
      ChecksAtRequest(env, parts, w);
    }
    CustomChecksQuiet(env, parts, w, FlowAt(n, env, parts, w));
    StageAlone(BEFORE_FORWARD[n], env, parts, w);
  }

  lemma ScanExactly(env: Env, parts: Parts, w: World)
    requires Passes(SCAN_AT, env, parts, w)
    ensures Step(ScanArm, env, FlowAt(SCAN_AT, env, parts, w)).Continue? <==> Lets(ScanArm, env, parts, w)
  {
    hide Step, Run, RouteOf, Content, Frozen, ScanOf, DetectionOff, Scan, ScanSkipped, FactsSent, Quiet, Excluded;
    PrefixFlow(SCAN_AT, env, parts, w);
    BodyAt(SCAN_AT, env, parts, w);
    var f := FlowAt(SCAN_AT, env, parts, w);
    ScannedAs(env, parts, f);
    ScanPasses(env, f);
    NoStage(ScanArm, env, parts, w);
  }

  lemma BansExactly(env: Env, parts: Parts, w: World)
    requires Passes(BANS_AT, env, parts, w)
    ensures Step(BanArm, env, FlowAt(BANS_AT, env, parts, w)).Continue? <==> Lets(BanArm, env, parts, w)
  {
    hide Step, Run, TableAsked, Quiet, BansOf, Faces, RouteOf, FactsSent, Excluded;
    FacesAt(BANS_AT, env, parts, w);
    if env.layer.stage.Some? { TableAtBans(env, parts, w, env.layer.stage.value); }
    assert BEFORE_FORWARD[BANS_AT] == BanArm;
    BansQuiet(env, parts, w, FlowAt(BANS_AT, env, parts, w));
  }

  lemma GeoExactly(env: Env, parts: Parts, w: World)
    requires Passes(GEO_AT, env, parts, w)
    ensures Step(GeoArm, env, FlowAt(GEO_AT, env, parts, w)).Continue? <==> Lets(GeoArm, env, parts, w)
  {
    hide Step, Run, Faces, Quiet, Meets, CountriesTakenOver, Excluded;
    FacesAt(GEO_AT, env, parts, w);
    SkipCountriesAtGeo(env, parts, w);
    assert BEFORE_FORWARD[GEO_AT] == GeoArm;
    GeoQuiet(env, parts, w, FlowAt(GEO_AT, env, parts, w));
    StageAlone(GeoArm, env, parts, w);
  }

  lemma CloudExactly(env: Env, parts: Parts, w: World)
    requires Passes(CLOUD_AT, env, parts, w)
    ensures Step(CloudArm, env, FlowAt(CLOUD_AT, env, parts, w)).Continue? <==> Lets(CloudArm, env, parts, w)
  {
    hide Step, Run, Faces, Lets, Excluded;
    FacesAt(CLOUD_AT, env, parts, w);
    assert BEFORE_FORWARD[CLOUD_AT] == CloudArm;
    CloudPasses(env, parts, w, FlowAt(CLOUD_AT, env, parts, w));
  }

  lemma RouteAgentsExactly(env: Env, parts: Parts, w: World)
    requires Passes(22, env, parts, w)
    ensures Step(RouteAgents, env, FlowAt(22, env, parts, w)).Continue? <==> Lets(RouteAgents, env, parts, w)
  {
    hide Step, Run, AgentAllowed, Quiet, RouteOf, FactsSent, Excluded;
    PrefixFlow(22, env, parts, w);
    AgentArmPasses(env, FlowAt(22, env, parts, w));
    NoStage(RouteAgents, env, parts, w);
  }

  lemma AgentExactly(env: Env, parts: Parts, w: World)
    requires Passes(AGENT_AT, env, parts, w)
    ensures Step(AgentArm, env, FlowAt(AGENT_AT, env, parts, w)).Continue? <==> Lets(AgentArm, env, parts, w)
  {
    hide Step, Run, Faces, Quiet, Meets, FindingOf, Excluded;
    FacesAt(AGENT_AT, env, parts, w);
    FindingAt(AGENT_AT, env, parts, w);
    assert BEFORE_FORWARD[AGENT_AT] == AgentArm;
    AgentQuiet(env, parts, w, FlowAt(AGENT_AT, env, parts, w));
    StageAlone(AgentArm, env, parts, w);
  }

  lemma InFrontOfTheTiers()
    ensures TierArm !in BEFORE_FORWARD[..TIERS_AT] && ForwardArm !in BEFORE_FORWARD[..TIERS_AT]
  {
    var front := BEFORE_FORWARD[..TIERS_AT];
    forall k: nat | k < |front| ensures front[k] != TierArm && front[k] != ForwardArm {
      ArmStandsInPlace(k);
    }
  }

  lemma LimitsAtTiers(env: Env, parts: Parts, w: World)
    requires Passes(TIERS_AT, env, parts, w)
    ensures SameLimits(w, FlowAt(TIERS_AT, env, parts, w).world)
  {
    hide Step, Run, SameLimits, FactsSent;
    InFrontOfTheTiers();
    PathOf(parts);
    RunFrame(BEFORE_FORWARD[..TIERS_AT], env, Start(parts, w));
  }

  lemma PathOf(parts: Parts)
    ensures FactsSent(parts).path == parts.uri.path
  {
  }

  lemma TiersExactly(env: Env, parts: Parts, w: World)
    requires Passes(TIERS_AT, env, parts, w)
    ensures Step(TierArm, env, FlowAt(TIERS_AT, env, parts, w)).Continue? <==> Lets(TierArm, env, parts, w)
  {
    hide Step, Run, Faces, TableDecided, Quiet, BansOf, GateLeft, TiersOf, FindingOf, TierQuestion, SameLimits, Excluded;
    FacesAt(TIERS_AT, env, parts, w);
    if env.layer.stage.Some? { TableAtTiers(env, parts, w, env.layer.stage.value); }
    LimitsAtTiers(env, parts, w);
    TiersAreAskedAbout(env, parts, w);
    assert BEFORE_FORWARD[TIERS_AT] == TierArm;
    TiersQuiet(env, parts, w, FlowAt(TIERS_AT, env, parts, w));
  }

  lemma SettlementExactly(n: nat, env: Env, parts: Parts, w: World)
    requires n in {24, 26} && Passes(n, env, parts, w)
    ensures Step(BEFORE_FORWARD[n], env, FlowAt(n, env, parts, w)).Continue? <==> Lets(BEFORE_FORWARD[n], env, parts, w)
  {
    hide Step, Run, FactsSent, RouteOf, FindingOf, Quiet, Excluded;
    PrefixFlow(n, env, parts, w);
    var f := FlowAt(n, env, parts, w);
    if n == 24 {
      TierArmPasses(env, f);
      NoStage(CarrierTiers, env, parts, w);
    } else {
      FindingAt(n, env, parts, w);
      ThreatPasses(env, f);
      NoStage(ThreatBlock, env, parts, w);
    }
  }

  /** One arm on the flow a run carries to it: a condition on the request decides it. */
  lemma ArmExactly(n: nat, env: Env, parts: Parts, w: World)
    requires 3 <= n < ALL && Passes(n, env, parts, w)
    ensures Step(BEFORE_FORWARD[n], env, FlowAt(n, env, parts, w)).Continue? <==> Lets(BEFORE_FORWARD[n], env, parts, w)
  {
    hide Step, Run, Lets;
    Positions();
    match n {
      case 18 => ScanExactly(env, parts, w);
      case 19 => BansExactly(env, parts, w);
      case 20 => GeoExactly(env, parts, w);
      case 21 => CloudExactly(env, parts, w);
      case 22 => RouteAgentsExactly(env, parts, w);
      case 23 => AgentExactly(env, parts, w);
      case 25 => TiersExactly(env, parts, w);
      case _ =>
        if n <= GATE_AT {
          AdmissionExactly(n, env, parts, w);
        } else if n in {7, 11, 13, 17} {
          EarlyStageExactly(n, env, parts, w);
        } else if n < 14 {
          FrontExactly(n, env, parts, w);
        } else if n in {15, 27} {
          ChecksExactly(n, env, parts, w);
        } else if n < SCAN_AT {
          BodyExactly(n, env, parts, w);
        } else {
          SettlementExactly(n, env, parts, w);
        }
    }
  }

  /**
   The first `n` arms pass a request exactly when it meets what each of them asks
   and the stage behind each of them is quiet.
   */
  lemma {:induction false} PassesExactly(n: nat, env: Env, parts: Parts, w: World)
    requires 3 <= n <= ALL && Fresh(env, parts, w)
    ensures Passes(n, env, parts, w) <==> forall k: nat | 3 <= k < n :: Lets(BEFORE_FORWARD[k], env, parts, w)
  {
    hide Step, Run, Lets, Fresh, Passes, FlowAt;
    if n == 3 {
      RoutedAt(env, parts, w);
    } else {
      PassesExactly(n - 1, env, parts, w);
      PassesNext(n - 1, env, parts, w);
      if Passes(n - 1, env, parts, w) { ArmExactly(n - 1, env, parts, w); }
    }
  }

  // ---- the theorems --------------------------------------------------------------------------------

  /** The request meets everything the guard asks of it. */
  ghost predicate Acceptable(env: Env, parts: Parts, w: World)
  {
    var route := RouteOf(env.layer, parts);
    && !UsageBans(env, parts, w)
    && GateOpen(env, parts)
    && BodyFits(env, parts)
    && (route.Some? ==> MeetsRoute(env, parts, route.value) && SelectorsParse(env.engine, route.value))
    && ScanEnds(env, parts)
    && ThreatAllowed(env, parts)
  }

  /** No stage has an answer to the request. */
  ghost predicate AllQuiet(env: Env, parts: Parts, w: World)
  {
    forall arm: Arm :: Quiet(arm, env, parts, w)
  }

  lemma ArmAt(arm: Arm)
    requires arm != ForwardArm
    ensures Place(arm) < ALL && BEFORE_FORWARD[Place(arm)] == arm
  {
  }

  /** The arms around the route and the forward ask for nothing. */
  lemma OthersLet(env: Env, parts: Parts, w: World)
    ensures Lets(ExcludedPath, env, parts, w) && Lets(Preflight, env, parts, w)
    ensures Lets(ResolveRoute, env, parts, w) && Lets(ForwardArm, env, parts, w)
  {
  }

  lemma LetsEverywhere(env: Env, parts: Parts, w: World)
    requires forall k: nat | 3 <= k < ALL :: Lets(BEFORE_FORWARD[k], env, parts, w)
    ensures forall arm: Arm :: Lets(arm, env, parts, w)
  {
    hide Lets, Place;
    OthersLet(env, parts, w);
    assert BEFORE_FORWARD[0] == ExcludedPath && BEFORE_FORWARD[1] == Preflight && BEFORE_FORWARD[2] == ResolveRoute;
    forall arm: Arm ensures Lets(arm, env, parts, w) {
      if arm != ForwardArm { ArmAt(arm); }
    }
  }

  /** The facts the conditions read, by their names. */
  lemma SentByName(parts: Parts)
    ensures var facts := FactsSent(parts);
      && facts.ip == parts.extensions.clientIp && facts.gate == parts.extensions.gate
      && facts.scheme == (if parts.uri.scheme.Some? then parts.uri.scheme.value else "http")
      && facts.referer == HeaderOf(parts.headers, "referer")
      && facts.userAgent == HeaderOf(parts.headers, "user-agent")
  {
    hide HeaderOf;
  }

  lemma AcceptableMeets(arm: Arm, env: Env, parts: Parts, w: World)
    requires Acceptable(env, parts, w)
    ensures Meets(arm, env, parts, w)
  {
    hide AddressAllowed, CountryAllowed, SchemeAllowed, HeadersMet, ReferrerMet, ValidatorsMet, WindowMet, AgentAllowed,
      UsageBans, GateOpen, BodyFits, SelectorsParse, ScanEnds, ThreatAllowed, RouteOf, FactsSent, HeaderOf, Content;
    SentByName(parts);
  }

  lemma MeetsItsRoute(env: Env, parts: Parts, w: World)
    requires forall arm: Arm :: Meets(arm, env, parts, w)
    ensures var route := RouteOf(env.layer, parts);
      route.Some? ==> MeetsRoute(env, parts, route.value) && SelectorsParse(env.engine, route.value)
  {
    hide AddressAllowed, CountryAllowed, SchemeAllowed, HeadersMet, ReferrerMet, ValidatorsMet, WindowMet, AgentAllowed,
      UsageBans, GateOpen, BodyFits, SelectorsParse, ScanEnds, ThreatAllowed, RouteOf, FactsSent, HeaderOf, Content;
    SentByName(parts);
    assert Meets(RouteIps, env, parts, w) && Meets(RouteCountries, env, parts, w) && Meets(HttpsArm, env, parts, w);
    assert Meets(RouteHeaders, env, parts, w) && Meets(RouteReferrer, env, parts, w);
    assert Meets(RouteValidators, env, parts, w) && Meets(RouteWindow, env, parts, w);
    assert Meets(CloudArm, env, parts, w) && Meets(RouteAgents, env, parts, w) && Meets(CarrierTiers, env, parts, w);
  }

  lemma AcceptableIsMet(env: Env, parts: Parts, w: World)
    ensures Acceptable(env, parts, w) <==> forall arm: Arm :: Meets(arm, env, parts, w)
  {
    hide MeetsRoute, UsageBans, GateOpen, BodyFits, SelectorsParse, ScanEnds, ThreatAllowed, RouteOf, FactsSent;
    if Acceptable(env, parts, w) {
      forall arm: Arm ensures Meets(arm, env, parts, w) { AcceptableMeets(arm, env, parts, w); }
    }
    if forall arm: Arm :: Meets(arm, env, parts, w) {
      MeetsItsRoute(env, parts, w);
      assert Meets(UsageRules, env, parts, w) && Meets(GlobalGate, env, parts, w) && Meets(BufferArm, env, parts, w);
      assert Meets(ScanArm, env, parts, w) && Meets(ThreatBlock, env, parts, w);
    }
  }

  /**
   Exactly which requests are forwarded, for every engine, every layer and every
   state of the stores. A request that is neither excluded nor a preflight reaches
   the wrapped service if and only if it is acceptable and no stage has an answer.
   */
  lemma ForwardedExactly(env: Env, parts: Parts, w: World)
    requires Fresh(env, parts, w)
    ensures Call(env, parts, w).Done?
    ensures Reaches(Call(env, parts, w).exit) <==> Acceptable(env, parts, w) && AllQuiet(env, parts, w)
  {
    hide Call, Run, Acceptable, Meets, Quiet, StepPreflight;
    ReachedPasses(env, parts, w);
    PassesExactly(ALL, env, parts, w);
    AcceptableIsMet(env, parts, w);
    if Passes(ALL, env, parts, w) {
      LetsEverywhere(env, parts, w);
      assert forall arm: Arm :: Lets(arm, env, parts, w) ==> Meets(arm, env, parts, w) && Quiet(arm, env, parts, w);
    }
  }

  /** The layer and its rate-limit stage are in passive mode. */
  predicate Passive(layer: GuardLayer)
  {
    layer.passiveMode && layer.stage.Some? && layer.stage.value.knobs.passiveMode
  }

  /** What still keeps a request from the wrapped service in passive mode, whatever the stages do. */
  ghost predicate StillBlocks(env: Env, parts: Parts, w: World)
  {
    var route := RouteOf(env.layer, parts);
    || UsageBans(env, parts, w)
    || !BodyFits(env, parts)
    || (route.Some? && !(MeetsRoute(env, parts, route.value) && SelectorsParse(env.engine, route.value)))
    || !ScanEnds(env, parts)
  }

  /**
   Exactly when passive mode forwards. The gate and the findings no longer count; the
   usage rules, the body, the route's own requirements, a panicking scan and a stage
   that answers all the same still do.
   */
  lemma PassiveModeForwardsExactly(env: Env, parts: Parts, w: World)
    requires Passive(env.layer) && Fresh(env, parts, w)
    ensures Call(env, parts, w).Done?
    ensures Reaches(Call(env, parts, w).exit) <==> !StillBlocks(env, parts, w) && AllQuiet(env, parts, w)
  {
    hide Call, UsageBans, BodyFits, MeetsRoute, SelectorsParse, ScanEnds, RouteOf, FindingOf, Fresh, Quiet,
      GateConsulted;
    ForwardedExactly(env, parts, w);
  }
}
