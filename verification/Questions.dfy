/**
 What every stage is asked. A stage remembers what its own arm wrote and nothing
 else, so each question can be written down beforehand, from the request, the
 configuration and the stores on arrival. Only the ban tables are written in front of
 an arm that reads them: by the usage rules, and by the ban decision.
 */
module Questions {
  import opened Admission
  import opened BodyBuffer
  import opened Engine
  import opened Frames
  import opened Http
  import opened Layer
  import opened Octets
  import opened Authority
  import opened Pipeline
  import opened Readings
  import opened Runs
  import opened Wrappers

  // ---- what passing arms leave in the stores -------------------------------------------------------

  /** What the stage behind an arm remembers; the custom checks stand behind two. */
  function Memory(arm: Arm, s: StageStates): Snapshot
  {
    match arm
    case EmergencyMode => s.emergency
    case HttpsArm => s.https
    case HeadersArm => s.headersAuth
    case ReferrerArm => s.referrer
    case Validators => s.customChecks
    case WindowArm => s.timeWindow
    case GeoArm => s.geo
    case CloudArm => s.cloud
    case AgentArm => s.userAgent
    case CustomRequestArm => s.customChecks
    case _ => ""
  }

  lemma StepKeepsStores(arm: Arm, env: Env, f: Flow)
    requires Step(arm, env, f).Continue?
    ensures var w := Step(arm, env, f).flow.world;
      Remembers(arm, f.world.stages, w.stages) && (!TouchesBans(arm) ==> w.bans == f.world.bans)
  {
    hide StepPreflight, StepResolveRoute, StepUsageRules, StepRouteIps, StepRouteCountries,
      StepEmergency, StepHttps, StepBuffer, StepRouteHeaders, StepHeaders, StepRouteReferrer,
      StepReferrer, StepRouteValidators, StepValidators, StepRouteWindow, StepWindow, StepScan,
      StepBans, StepGeo, StepCloud, StepRouteAgents, StepAgent, StepGlobalGate,
      StepCarrierTiers, StepTiers, StepThreat, StepCustomRequest, Pass, Remembers, Answers;
    if arm != ForwardArm && (arm == ExcludedPath ==> f.facts.path !in env.layer.excludePaths) {
      StepFrame(arm, env, f);
    }
  }

  lemma OtherMemoryKept(x: Arm, arm: Arm, s: StageStates, t: StageStates)
    requires Remembers(arm, s, t) && x != arm
    requires (x == Validators ==> arm != CustomRequestArm) && (x == CustomRequestArm ==> arm != Validators)
    ensures Memory(x, t) == Memory(x, s)
  {
  }

  /** The stage behind `x` remembers what it did, as long as the run does not get to it. */
  lemma {:induction false} RunKeepsMemory(x: Arm, arms: seq<Arm>, env: Env, f: Flow)
    requires x !in arms && Run(arms, env, f).Continue?
    requires x == Validators ==> CustomRequestArm !in arms
    requires x == CustomRequestArm ==> Validators !in arms
    ensures Memory(x, Run(arms, env, f).flow.world.stages) == Memory(x, f.world.stages)
  {
    hide Step, Remembers, Memory;
    if arms != [] {
      StepKeepsStores(arms[0], env, f);
      OtherMemoryKept(x, arms[0], f.world.stages, Step(arms[0], env, f).flow.world.stages);
      RunKeepsMemory(x, arms[1..], env, Step(arms[0], env, f).flow);
    }
  }

  lemma {:induction false} RunKeepsTables(arms: seq<Arm>, env: Env, f: Flow)
    requires (forall x | x in arms :: !TouchesBans(x)) && Run(arms, env, f).Continue?
    ensures Run(arms, env, f).flow.world.bans == f.world.bans
  {
    hide Step, Remembers, TouchesBans;
    if arms != [] {
      StepKeepsStores(arms[0], env, f);
      RunKeepsTables(arms[1..], env, Step(arms[0], env, f).flow);
    }
  }

  /** Before its own arm, every stage remembers what it remembered on arrival. */
  lemma MemoryAt(n: nat, env: Env, parts: Parts, w: World)
    requires Passes(n, env, parts, w) && n < ALL - 1
    ensures Memory(BEFORE_FORWARD[n], FlowAt(n, env, parts, w).world.stages) == Memory(BEFORE_FORWARD[n], w.stages)
  {
    hide Run, Memory;
    forall j: nat | j < n ensures BEFORE_FORWARD[..n][j] != BEFORE_FORWARD[n] && BEFORE_FORWARD[..n][j] != CustomRequestArm {
      ArmStandsInPlace(j);
      ArmStandsInPlace(n);
    }
    ArmStandsInPlace(n);
    RunKeepsMemory(BEFORE_FORWARD[n], BEFORE_FORWARD[..n], env, Start(parts, w));
  }

  // ---- the ban tables ------------------------------------------------------------------------------

  /** A request that is neither excluded nor a preflight. */
  predicate Fresh(env: Env, parts: Parts, w: World)
  {
    !Excluded(env.layer, parts) && StepPreflight(env, Start(parts, w)).Continue?
  }

  /** The flow behind the resolved route. */
  function Routed(env: Env, parts: Parts, w: World): Flow
  {
    Start(parts, w).(route := RouteOf(env.layer, parts))
  }

  lemma RoutedAt(env: Env, parts: Parts, w: World)
    requires Fresh(env, parts, w)
    ensures Passes(3, env, parts, w) && FlowAt(3, env, parts, w) == Routed(env, parts, w)
  {
    hide StepPreflight, Step;
    FrontFlow(env, parts, w);
    assert BEFORE_FORWARD[..3] == [ExcludedPath, Preflight, ResolveRoute];
  }

  lemma PassedIsFresh(n: nat, env: Env, parts: Parts, w: World)
    requires 2 <= n && Passes(n, env, parts, w)
    ensures Fresh(env, parts, w)
  {
    hide Step, StepPreflight, StepExcludedPath;
    var f := Start(parts, w);
    SplitAt(1, n, env, f);
    assert BEFORE_FORWARD[..1] == [ExcludedPath] + [];
    RunFirst(ExcludedPath, [], env, f);
    DispatchEnds(env, f);
    NotExcluded(env, f);
    assert BEFORE_FORWARD[1] == Preflight;
  }

  /** The usage rules of the route, if they are run, and whether they ban. */
  function UsageOf(env: Env, parts: Parts, w: World): (World, bool)
  {
    var route := RouteOf(env.layer, parts);
    if route.None? || route.value.behaviorRules == [] || env.layer.processor.None? then (w, false)
    else UsagePass(env, Routed(env, parts, w), env.layer.processor.value, route.value.behaviorRules)
  }

  /** The stage's table when the ban decision is asked. */
  function TableAsked(env: Env, parts: Parts, w: World, stage: RateLimitStage): BanTable
  {
    BansOf(UsageOf(env, parts, w).0, stage.manager)
  }

  /** The stage's table when the tiers are asked. */
  function TableDecided(env: Env, parts: Parts, w: World, stage: RateLimitStage): BanTable
  {
    var table := TableAsked(env, parts, w, stage);
    if Bypassed(RouteOf(env.layer, parts), "ip_ban") then table
    else env.engine.decideBans(stage.knobs, table, env.now, parts.extensions.clientIp).0
  }

  lemma UsageArm(env: Env, f: Flow)
    ensures f == Routed(env, f.parts, f.world) ==>
      var (u, banned) := UsageOf(env, f.parts, f.world);
      && (Step(UsageRules, env, f).Continue? <==> !banned)
      && (!banned ==> Step(UsageRules, env, f).flow == f.(world := u))
  {
    hide Pass, UsagePass, RouteOf;
  }

  /** Between the usage rules and the ban decision, and from there to the tiers, no ban table changes. */
  lemma BansBetween(i: nat, j: nat, env: Env, f: Flow, m: IpBanManager)
    requires 4 <= i <= j <= ALL && (j <= BANS_AT || (BANS_AT < i && j <= TIERS_AT))
    requires Run(BEFORE_FORWARD[i..j], env, f).Continue?
    ensures BansOf(Run(BEFORE_FORWARD[i..j], env, f).flow.world, m) == BansOf(f.world, m)
  {
    hide Run;
    var arms := BEFORE_FORWARD[i..j];
    forall x | x in arms ensures !TouchesBans(x) {
      var k :| i <= k < j && BEFORE_FORWARD[k] == x;
      ArmStandsInPlace(k);
    }
    RunKeepsTables(arms, env, f);
  }

  lemma TableAtBans(env: Env, parts: Parts, w: World, stage: RateLimitStage)
    requires Passes(BANS_AT, env, parts, w)
    ensures BansOf(FlowAt(BANS_AT, env, parts, w).world, stage.manager) == TableAsked(env, parts, w, stage)
  {
    hide Step, Run, UsageOf;
    PassedIsFresh(BANS_AT, env, parts, w);
    RoutedAt(env, parts, w);
    SplitAt(3, BANS_AT, env, Start(parts, w));
    UsageArm(env, FlowAt(3, env, parts, w));
    assert BEFORE_FORWARD[3] == UsageRules;
    var g := Step(UsageRules, env, FlowAt(3, env, parts, w)).flow;
    BansBetween(4, BANS_AT, env, g, stage.manager);
  }

  lemma BanArmWrites(env: Env, f: Flow, stage: RateLimitStage)
    requires Step(BanArm, env, f).Continue? && env.layer.stage == Some(stage)
    ensures BansOf(Step(BanArm, env, f).flow.world, stage.manager) ==
            if Bypassed(f.route, "ip_ban") then BansOf(f.world, stage.manager)
            else env.engine.decideBans(stage.knobs, BansOf(f.world, stage.manager), env.now, f.facts.ip).0
  {
    hide Pass, Bypassed, StageAnswer;
  }

  lemma ClientOf(parts: Parts)
    ensures FactsSent(parts).ip == parts.extensions.clientIp
  {
  }

  lemma TableAtTiers(env: Env, parts: Parts, w: World, stage: RateLimitStage)
    requires Passes(TIERS_AT, env, parts, w) && env.layer.stage == Some(stage)
    ensures BansOf(FlowAt(TIERS_AT, env, parts, w).world, stage.manager) == TableDecided(env, parts, w, stage)
  {
    hide Step, Run, TableAsked, Bypassed, RouteOf, BansOf, FactsSent, Excluded;
    ClientOf(parts);
    PassedAt(BANS_AT, TIERS_AT, env, parts, w);
    TableAtBans(env, parts, w, stage);
    SplitAt(BANS_AT, TIERS_AT, env, Start(parts, w));
    assert BEFORE_FORWARD[BANS_AT] == BanArm;
    var f := FlowAt(BANS_AT, env, parts, w);
    BanArmWrites(env, f, stage);
    BansBetween(BANS_AT + 1, TIERS_AT, env, Step(BanArm, env, f).flow, stage.manager);
  }

  // ---- the countries -------------------------------------------------------------------------------

  /** The route's own country whitelist takes the place of the global countries. */
  predicate CountriesTakenOver(env: Env, parts: Parts)
  {
    var route := RouteOf(env.layer, parts);
    && route.Some? && !Bypassed(route, "ip") && ListsCountries(route.value)
    && parts.extensions.clientIp.Some? && env.layer.geoHandler.Some?
    && env.engine.parseCountries(route.value.whitelistCountries, route.value.blockedCountries).whitelist != {}
  }

  lemma SkipCountries(env: Env, f: Flow)
    requires !f.skipCountries && Step(RouteCountries, env, f).Continue?
    ensures Step(RouteCountries, env, f).flow.skipCountries ==
      (f.route.Some? && !Bypassed(f.route, "ip") && ListsCountries(f.route.value)
       && f.facts.ip.Some? && env.layer.geoHandler.Some?
       && env.engine.parseCountries(f.route.value.whitelistCountries, f.route.value.blockedCountries).whitelist != {})
  {
    hide Block, Bypassed;
    AnswersEnd(env, f, 403, FORBIDDEN_MESSAGE);
  }

  lemma AroundTheCountries()
    ensures RouteCountries !in BEFORE_FORWARD[..5] && ForwardArm !in BEFORE_FORWARD[..5]
    ensures RouteCountries !in BEFORE_FORWARD[6..GEO_AT] && ForwardArm !in BEFORE_FORWARD[6..GEO_AT]
    ensures ExcludedPath !in BEFORE_FORWARD[6..GEO_AT]
  {
    forall x | x in BEFORE_FORWARD[..5] ensures x != RouteCountries && x != ForwardArm {
      var j :| 0 <= j < 5 && BEFORE_FORWARD[j] == x;
      ArmStandsInPlace(j);
    }
    forall x | x in BEFORE_FORWARD[6..GEO_AT] ensures x != RouteCountries && x != ForwardArm && x != ExcludedPath {
      var j :| 6 <= j < GEO_AT && BEFORE_FORWARD[j] == x;
      ArmStandsInPlace(j);
    }
  }

  lemma SkipCountriesAtGeo(env: Env, parts: Parts, w: World)
    requires Passes(GEO_AT, env, parts, w)
    ensures FlowAt(GEO_AT, env, parts, w).skipCountries == CountriesTakenOver(env, parts)
  {
    hide Step, Run, RouteOf, Bypassed, ListsCountries, SameLimits;
    var f := Start(parts, w);
    PassedAt(5, GEO_AT, env, parts, w);
    SplitAt(5, GEO_AT, env, f);
    assert BEFORE_FORWARD[5] == RouteCountries;
    AroundTheCountries();
    RunFrame(BEFORE_FORWARD[..5], env, f);
    var g := FlowAt(5, env, parts, w);
    SkipCountries(env, g);
    RunFrame(BEFORE_FORWARD[6..GEO_AT], env, Step(RouteCountries, env, g).flow);
  }

  // ---- the custom checks ---------------------------------------------------------------------------

  /** What the custom checks remember when they see the request for the second time. */
  ghost function ChecksRemember(env: Env, parts: Parts, w: World): Snapshot
  {
    if env.layer.customChecks.None? then w.stages.customChecks
    else env.layer.customChecks.value.validators(
           w.stages.customChecks, FactsSent(parts), BodySeen(env.engine, Content(env.frames))).0
  }

  lemma ValidatorsWrite(env: Env, f: Flow)
    requires Step(Validators, env, f).Continue?
    ensures Step(Validators, env, f).flow.world.stages.customChecks ==
            if env.layer.customChecks.None? then f.world.stages.customChecks
            else env.layer.customChecks.value.validators(
                   f.world.stages.customChecks, f.facts, Utf8View(env.engine, f.buffered)).0
  {
    hide Pass, Utf8View;
  }

  /** Between the two custom checks their stage is not asked. */
  lemma BetweenTheChecks(env: Env, f: Flow)
    requires Run(BEFORE_FORWARD[16..27], env, f).Continue?
    ensures Run(BEFORE_FORWARD[16..27], env, f).flow.world.stages.customChecks == f.world.stages.customChecks
  {
    hide Run, Step;
    var arms := BEFORE_FORWARD[16..27];
    forall j: nat | j < |arms| ensures arms[j] != Validators && arms[j] != CustomRequestArm {
      ArmStandsInPlace(j + 16);
    }
    RunKeepsMemory(CustomRequestArm, arms, env, f);
  }

  lemma ChecksAtRequest(env: Env, parts: Parts, w: World)
    requires Passes(27, env, parts, w)
    ensures FlowAt(27, env, parts, w).world.stages.customChecks == ChecksRemember(env, parts, w)
  {
    hide Step, Run, FactsSent, Content, Excluded, RouteOf;
    PassedAt(15, 27, env, parts, w);
    BodyAt(15, env, parts, w);
    MemoryAt(15, env, parts, w);
    SplitAt(15, 27, env, Start(parts, w));
    assert BEFORE_FORWARD[15] == Validators;
    var g := FlowAt(15, env, parts, w);
    ValidatorsWrite(env, g);
    BetweenTheChecks(env, Step(Validators, env, g).flow);
  }

  // ---- the questions -------------------------------------------------------------------------------

  /** The provider list the cloud stage is given: the route's own, if it names any. */
  function SelectorsOf(e: Engine, route: Option<RouteConfig>): Option<Selectors>
  {
    if route.Some? && route.value.blockCloudProviders != [] then e.parseSelectors(route.value.blockCloudProviders)
    else None
  }

  /** What the https stage is asked about a request. */
  ghost function HttpsAsked(parts: Parts, route: Option<RouteConfig>): HttpsInput
  {
    var host := FactsSent(parts).host;
    HttpsInput(
      path := parts.uri.path,
      scheme := if parts.uri.scheme.Some? then parts.uri.scheme.value else "http",
      clientHost := match host { case Some(authority) => Some(HostOfAuthority(authority)) case None => None },
      forwardedProto := HeaderOf(parts.headers, "x-forwarded-proto"),
      target := Url(host := match host { case Some(authority) => authority case None => "" },
                    path := parts.uri.path, query := parts.uri.query),
      requireHttps := match route { case Some(r) => Some(r.requireHttps) case None => None })
  }

  lemma HttpsIsAsked(parts: Parts, route: Option<RouteConfig>)
    ensures HttpsQuestion(FactsSent(parts), route) == HttpsAsked(parts, route)
  {
    hide HostOfAuthority;
  }

  /**
   The stage behind an arm has no answer to the request: it is not installed, or the
   arm does not ask it, or it lets the request pass. Nothing here mentions the run.
   */
  ghost predicate Quiet(arm: Arm, env: Env, parts: Parts, w: World)
  {
    var l, e, route, facts := env.layer, env.engine, RouteOf(env.layer, parts), FactsSent(parts);
    match arm
    case EmergencyMode => l.emergency.Some? ==> l.emergency.value.decide(w.stages.emergency, facts).1.None?
    case HttpsArm => l.https.Some? ==> l.https.value.decide(w.stages.https, HttpsAsked(parts, route)).1.None?
    case HeadersArm =>
      l.headersAuth.Some? ==>
        l.headersAuth.value.decide(w.stages.headersAuth, facts.path, HeaderPairs(parts.headers)).1.None?
    case ReferrerArm => l.referrer.Some? ==> l.referrer.value.decide(w.stages.referrer, facts).1.None?
    case Validators =>
      l.customChecks.Some? ==>
        l.customChecks.value.validators(
          w.stages.customChecks, facts, BodySeen(e, Content(env.frames))).1.None?
    case WindowArm => l.timeWindow.Some? ==> l.timeWindow.value.decide(w.stages.timeWindow, facts).1.None?
    case BanArm =>
      l.stage.Some? &&
      (Bypassed(route, "ip_ban")
       || e.decideBans(l.stage.value.knobs, TableAsked(env, parts, w, l.stage.value), env.now, facts.ip).1.None?)
    case GeoArm =>
      || Bypassed(route, "ip") || CountriesTakenOver(env, parts) || l.geoBlocking.None?
      || l.geoBlocking.value.decide(w.stages.geo, facts.ip, facts.gate).1.None?
    case CloudArm =>
      || Bypassed(route, "clouds") || l.cloud.None?
      || l.cloud.value.decide(w.stages.cloud, facts.ip, facts.gate, SelectorsOf(e, route)).1.None?
    case AgentArm =>
      l.userAgent.Some? ==>
        l.userAgent.value.decide(
          w.stages.userAgent,
          UserAgentInput(facts.ip, facts.gate, facts.path, facts.userAgent, FindingOf(env, parts))).1.None?
    case TierArm =>
      l.stage.Some? &&
      (Bypassed(route, "rate_limit")
       || e.decideTiers(
            l.stage.value.knobs, TierStores(w.windows, w.counts, TableDecided(env, parts, w, l.stage.value)), env.now,
            TierInput(parts.extensions.clientIp, parts.uri.path, TiersOf(env, parts), GateLeft(env, parts),
                      FindingOf(env, parts))).1.None?)
    case CustomRequestArm =>
      l.customChecks.Some? ==>
        l.customChecks.value.request(
          ChecksRemember(env, parts, w), facts, BodySeen(e, Content(env.frames))).1.None?
    case _ => true
  }

  /** The flow an arm meets on the way: the request as it came, and its stage's memory. */
  ghost predicate Faces(arm: Arm, env: Env, parts: Parts, w: World, f: Flow)
  {
    && f.route == RouteOf(env.layer, parts) && f.facts == FactsSent(parts)
    && f.parts == WithGate(parts, f.parts.extensions.gate)
    && (arm != CustomRequestArm ==> Memory(arm, f.world.stages) == Memory(arm, w.stages))
  }

  lemma EarlyStageQuiet(arm: Arm, env: Env, parts: Parts, w: World, f: Flow)
    requires arm in {EmergencyMode, HeadersArm, ReferrerArm, WindowArm} && Faces(arm, env, parts, w, f)
    ensures Step(arm, env, f).Continue? <==> Quiet(arm, env, parts, w)
  {
    hide Pass, HeaderPairs, RouteOf, FactsSent;
    HeadersKept(parts, f.parts.extensions.gate);
  }

  lemma HeadersKept(parts: Parts, gate: Option<GateDecision>)
    ensures WithGate(parts, gate).headers == parts.headers
    ensures FactsSent(parts).path == parts.uri.path
  {
  }

  lemma CustomChecksQuiet(env: Env, parts: Parts, w: World, f: Flow)
    requires f.facts == FactsSent(parts) && f.buffered == Frozen(Content(env.frames))
    ensures f.world.stages.customChecks == w.stages.customChecks ==>
      (Step(Validators, env, f).Continue? <==> Quiet(Validators, env, parts, w))
    ensures f.world.stages.customChecks == ChecksRemember(env, parts, w) ==>
      (Step(CustomRequestArm, env, f).Continue? <==> Quiet(CustomRequestArm, env, parts, w))
  {
    hide Pass, RouteOf, FactsSent, ChecksRemember, Content;
  }

  lemma BansQuiet(env: Env, parts: Parts, w: World, f: Flow)
    requires Faces(BanArm, env, parts, w, f)
    requires env.layer.stage.Some? ==>
      BansOf(f.world, env.layer.stage.value.manager) == TableAsked(env, parts, w, env.layer.stage.value)
    ensures Step(BanArm, env, f).Continue? <==> Quiet(BanArm, env, parts, w)
  {
    hide Pass, Bypassed, RouteOf, FactsSent, TableAsked, StageAnswer, BansOf;
  }

  lemma GeoQuiet(env: Env, parts: Parts, w: World, f: Flow)
    requires Faces(GeoArm, env, parts, w, f) && f.skipCountries == CountriesTakenOver(env, parts)
    ensures Step(GeoArm, env, f).Continue? <==> Quiet(GeoArm, env, parts, w)
  {
    hide Pass, Bypassed, RouteOf, FactsSent, CountriesTakenOver;
  }

  lemma AgentQuiet(env: Env, parts: Parts, w: World, f: Flow)
    requires Faces(AgentArm, env, parts, w, f) && f.verdict == FindingOf(env, parts)
    ensures Step(AgentArm, env, f).Continue? <==> Quiet(AgentArm, env, parts, w)
  {
    hide Pass, RouteOf, FactsSent, FindingOf;
  }

  lemma TiersQuiet(env: Env, parts: Parts, w: World, f: Flow)
    requires Faces(TierArm, env, parts, w, f) && SameLimits(w, f.world)
    requires TierQuestion(f) == TierInput(parts.extensions.clientIp, parts.uri.path, TiersOf(env, parts),
                                          GateLeft(env, parts), FindingOf(env, parts))
    requires env.layer.stage.Some? ==>
      BansOf(f.world, env.layer.stage.value.manager) == TableDecided(env, parts, w, env.layer.stage.value)
    ensures Step(TierArm, env, f).Continue? <==> Quiet(TierArm, env, parts, w)
  {
    hide Pass, Bypassed, RouteOf, FactsSent, TableDecided, StageAnswer, BansOf, TiersOf, GateLeft, FindingOf,
      TierQuestion;
  }
}
