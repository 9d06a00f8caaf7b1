/**
 Bypass monotonicity, a statement about two runs: adding check names to a route's
 bypass set never turns a request that reached the wrapped service into one that
 is answered. Adding `ip` needs a proviso, because a skipped gate also grants no
 exemption: a request the gate had whitelisted may then meet the rate limit.
 */
module Bypass {
  import opened Admission
  import opened BodyBuffer
  import opened Engine
  import opened Frames
  import opened Http
  import opened Layer
  import opened Noninterference
  import opened Octets
  import opened Pipeline
  import opened Runs
  import opened Wrappers

  // ---- what is asked of the engine and the stages ----------------------------------------

  /** A ban decision that lets the request pass leaves the table as it was. */
  ghost predicate SilentBansChangeNothing(e: Engine)
  {
    forall k: StageKnobs, t: BanTable, now: nat, who: Option<Ip> ::
      e.decideBans(k, t, now, who).1.None? ==> e.decideBans(k, t, now, who).0 == t
  }

  /** Without the threat finding the tiers still let the request pass. */
  ghost predicate TiersEaseWithoutFinding(e: Engine)
  {
    forall k: StageKnobs, s: TierStores, now: nat, q: TierInput ::
      e.decideTiers(k, s, now, q).1.None? ==> e.decideTiers(k, s, now, q.(finding := None)).1.None?
  }

  /** A request that passes the tiers without an exemption passes them under any gate decision. */
  ghost predicate TiersPassUnderAnyGate(e: Engine)
  {
    forall k: StageKnobs, s: TierStores, now: nat, q: TierInput, gate: Option<GateDecision> ::
      e.decideTiers(k, s, now, q).1.None? && !Unfiltered(q.gate) ==>
        e.decideTiers(k, s, now, q.(gate := gate)).1.None?
  }

  /** Without the threat finding the user-agent stage still lets the request pass. */
  ghost predicate AgentEasesWithoutFinding(layer: GuardLayer)
  {
    layer.userAgent.Some? ==>
      forall s: Snapshot, q: UserAgentInput ::
        layer.userAgent.value.decide(s, q).1.None? ==> layer.userAgent.value.decide(s, q.(finding := None)).1.None?
  }

  // ---- two flows, the second with the larger bypass set ------------------------------------

  function Eased(r: RouteConfig, extra: set<string>): RouteConfig
  {
    r.(bypassed := r.bypassed + extra)
  }

  function Relabelled(parts: Parts, gate: Option<GateDecision>, route: Option<RouteConfig>): Parts
  {
    parts.(extensions := parts.extensions.(gate := gate, route := route))
  }

  /** What both flows share wherever they are. */
  ghost predicate SameRequest(extra: set<string>, f: Flow, g: Flow)
  {
    && g.facts == f.facts && g.buffered == f.buffered && g.tiers == f.tiers
    && f.route.Some? && g.route == Some(Eased(f.route.value, extra))
    && g.parts == Relabelled(f.parts, g.parts.extensions.gate, g.parts.extensions.route)
    && (!Bypassed(g.route, "ip") ==> g.skipIpLists == f.skipIpLists && g.skipCountries == f.skipCountries)
    && (!Bypassed(g.route, "ip") || Bypassed(f.route, "ip") ==> g.parts.extensions.gate == f.parts.extensions.gate)
  }

  /** Up to the scan the two worlds are the same. */
  ghost predicate SameWorld(extra: set<string>, f: Flow, g: Flow)
  {
    SameRequest(extra, f, g) && g.world == f.world && g.verdict == f.verdict
  }

  /** If the first flow goes on, so does the second, and they stay related. */
  ghost predicate Follows(extra: set<string>, o: Outcome, p: Outcome)
  {
    o.Continue? ==> p.Continue? && SameWorld(extra, o.flow, p.flow)
  }

  lemma UsageRulesFollows(env: Env, f: Flow, g: Flow, extra: set<string>)
    requires SameWorld(extra, f, g)
    ensures Follows(extra, StepUsageRules(env, f), StepUsageRules(env, g))
  {
    hide Pass;
  }

  lemma RouteIpsFollows(env: Env, f: Flow, g: Flow, extra: set<string>)
    requires SameWorld(extra, f, g)
    ensures Follows(extra, StepRouteIps(env, f), StepRouteIps(env, g))
  {
    hide Pass;
  }

  lemma RouteCountriesFollows(env: Env, f: Flow, g: Flow, extra: set<string>)
    requires SameWorld(extra, f, g)
    ensures Follows(extra, StepRouteCountries(env, f), StepRouteCountries(env, g))
  {
    hide Pass;
  }

  lemma GlobalGateFollows(env: Env, f: Flow, g: Flow, extra: set<string>)
    requires SameWorld(extra, f, g)
    ensures Follows(extra, StepGlobalGate(env, f), StepGlobalGate(env, g))
  {
    hide Pass;
  }

  lemma EmergencyFollows(env: Env, f: Flow, g: Flow, extra: set<string>)
    requires SameWorld(extra, f, g)
    ensures Follows(extra, StepEmergency(env, f), StepEmergency(env, g))
  {
    hide Pass;
  }

  lemma HttpsAskedTheSame(f: Flow, g: Flow, extra: set<string>)
    requires SameRequest(extra, f, g)
    ensures HttpsQuestion(g.facts, g.route) == HttpsQuestion(f.facts, f.route)
  {
    hide HttpsUrl;
  }

  lemma HttpsFollows(env: Env, f: Flow, g: Flow, extra: set<string>)
    requires SameWorld(extra, f, g)
    ensures Follows(extra, StepHttps(env, f), StepHttps(env, g))
  {
    hide Pass, RedirectAnswer, HttpsQuestion, HttpsUrl, Bypassed;
    HttpsAskedTheSame(f, g, extra);
  }

  lemma BufferFollows(env: Env, f: Flow, g: Flow, extra: set<string>)
    requires SameWorld(extra, f, g)
    ensures Follows(extra, StepBuffer(env, f), StepBuffer(env, g))
  {
    hide Pass;
  }

  lemma RouteHeadersFollows(env: Env, f: Flow, g: Flow, extra: set<string>)
    requires SameWorld(extra, f, g)
    ensures Follows(extra, StepRouteHeaders(env, f), StepRouteHeaders(env, g))
  {
    hide Pass, HeaderPairs, FindPair;
  }

  lemma HeadersFollows(env: Env, f: Flow, g: Flow, extra: set<string>)
    requires SameWorld(extra, f, g)
    ensures Follows(extra, StepHeaders(env, f), StepHeaders(env, g))
  {
    hide Pass, HeaderPairs, FindPair;
  }

  lemma RouteReferrerFollows(env: Env, f: Flow, g: Flow, extra: set<string>)
    requires SameWorld(extra, f, g)
    ensures Follows(extra, StepRouteReferrer(env, f), StepRouteReferrer(env, g))
  {
    hide Pass;
  }

  lemma ReferrerFollows(env: Env, f: Flow, g: Flow, extra: set<string>)
    requires SameWorld(extra, f, g)
    ensures Follows(extra, StepReferrer(env, f), StepReferrer(env, g))
  {
    hide Pass;
  }

  lemma RouteValidatorsFollows(env: Env, f: Flow, g: Flow, extra: set<string>)
    requires SameWorld(extra, f, g)
    ensures Follows(extra, StepRouteValidators(env, f), StepRouteValidators(env, g))
  {
    hide Pass;
  }

  lemma ValidatorsFollows(env: Env, f: Flow, g: Flow, extra: set<string>)
    requires SameWorld(extra, f, g)
    ensures Follows(extra, StepValidators(env, f), StepValidators(env, g))
  {
    hide Pass;
  }

  lemma RouteWindowFollows(env: Env, f: Flow, g: Flow, extra: set<string>)
    requires SameWorld(extra, f, g)
    ensures Follows(extra, StepRouteWindow(env, f), StepRouteWindow(env, g))
  {
    hide Pass;
  }

  lemma WindowFollows(env: Env, f: Flow, g: Flow, extra: set<string>)
    requires SameWorld(extra, f, g)
    ensures Follows(extra, StepWindow(env, f), StepWindow(env, g))
  {
    hide Pass;
  }

  /** The arms between the resolved route and the scan. */
  const UNSCANNED: seq<Arm> := ADMISSION[3..] + CONTENT

  lemma StepFollows(arm: Arm, env: Env, f: Flow, g: Flow, extra: set<string>)
    requires arm in UNSCANNED
    requires SameWorld(extra, f, g)
    ensures Follows(extra, Step(arm, env, f), Step(arm, env, g))
  {
    hide StepUsageRules, StepRouteIps, StepRouteCountries, StepGlobalGate, StepEmergency, StepHttps,
      StepBuffer, StepRouteHeaders, StepHeaders, StepRouteReferrer, StepReferrer,
      StepRouteValidators, StepValidators, StepRouteWindow, StepWindow, SameWorld, Follows;
    match arm {
      case UsageRules => UsageRulesFollows(env, f, g, extra);
      case RouteIps => RouteIpsFollows(env, f, g, extra);
      case RouteCountries => RouteCountriesFollows(env, f, g, extra);
      case GlobalGate => GlobalGateFollows(env, f, g, extra);
      case EmergencyMode => EmergencyFollows(env, f, g, extra);
      case HttpsArm => HttpsFollows(env, f, g, extra);
      case BufferArm => BufferFollows(env, f, g, extra);
      case RouteHeaders => RouteHeadersFollows(env, f, g, extra);
      case HeadersArm => HeadersFollows(env, f, g, extra);
      case RouteReferrer => RouteReferrerFollows(env, f, g, extra);
      case ReferrerArm => ReferrerFollows(env, f, g, extra);
      case RouteValidators => RouteValidatorsFollows(env, f, g, extra);
      case Validators => ValidatorsFollows(env, f, g, extra);
      case RouteWindow => RouteWindowFollows(env, f, g, extra);
      case WindowArm => WindowFollows(env, f, g, extra);
    }
  }

  lemma {:induction false} RunFollows(arms: seq<Arm>, env: Env, f: Flow, g: Flow, extra: set<string>)
    requires forall x | x in arms :: x in UNSCANNED
    requires SameWorld(extra, f, g)
    ensures Follows(extra, Run(arms, env, f), Run(arms, env, g))
  {
    hide Step, SameWorld;
    if arms != [] {
      StepFollows(arms[0], env, f, g, extra);
      if Step(arms[0], env, f).Continue? {
        RunFollows(arms[1..], env, Step(arms[0], env, f).flow, Step(arms[0], env, g).flow, extra);
      }
    }
  }

  // ---- from the scan on --------------------------------------------------------------------

  /**
   Behind the scan the worlds may differ where a skipped arm would have written.
   `n` counts the arms of the screening that are behind the flows; a slot is
   still the same as long as its only reader is ahead.
   */
  ghost predicate CloseWorlds(m: IpBanManager, n: nat, v: World, w: World)
  {
    && w.windows == v.windows && w.counts == v.counts && BansOf(w, m) == BansOf(v, m)
    && w.stages.customChecks == v.stages.customChecks
    && (n < 3 ==> w.stages.geo == v.stages.geo)
    && (n < 4 ==> w.stages.cloud == v.stages.cloud)
    && (n < 6 ==> w.stages.userAgent == v.stages.userAgent)
  }

  ghost predicate Close(extra: set<string>, m: IpBanManager, n: nat, f: Flow, g: Flow)
  {
    SameRequest(extra, f, g) && CloseWorlds(m, n, f.world, g.world) && (g.verdict == f.verdict || g.verdict.None?)
  }

  ghost predicate Trails(extra: set<string>, m: IpBanManager, n: nat, o: Outcome, p: Outcome)
  {
    o.Continue? ==> p.Continue? && Close(extra, m, n, o.flow, p.flow)
  }

  lemma SurfacesRelabelled(parts: Parts, gate: Option<GateDecision>, route: Option<RouteConfig>, body: Option<Octets>)
    ensures ScanSurfaces(Relabelled(parts, gate, route), body) == ScanSurfaces(parts, body)
  {
  }

  /** The larger set skips the scan wherever the smaller one does, and scans the same. */
  lemma ScannedTogether(env: Env, f: Flow, g: Flow, extra: set<string>)
    requires SameRequest(extra, f, g)
    ensures Scan(env, g) == Scan(env, f) && (ScanSkipped(env, f) ==> ScanSkipped(env, g))
  {
    hide ScanSurfaces;
    SurfacesRelabelled(f.parts, g.parts.extensions.gate, g.parts.extensions.route, f.buffered);
  }

  lemma ScanTrails(env: Env, m: IpBanManager, f: Flow, g: Flow, extra: set<string>)
    requires Close(extra, m, 0, f, g)
    ensures Trails(extra, m, 1, StepScan(env, f), StepScan(env, g))
  {
    hide Pass, Scan, ScanSkipped, Bypassed;
    ScannedTogether(env, f, g, extra);
  }

  /** A ban arm that lets the request pass leaves every store as it was. */
  lemma SilentBanArm(env: Env, f: Flow)
    requires SilentBansChangeNothing(env.engine) && env.layer.stage.Some?
    requires !Bypassed(f.route, "ip_ban")
    ensures StepBans(env, f).Continue?
            <==> env.engine.decideBans(env.layer.stage.value.knobs, BansOf(f.world, env.layer.stage.value.manager),
                                       env.now, f.facts.ip).1.None?
    ensures StepBans(env, f).Continue? ==>
      && StepBans(env, f).flow == f.(world := StepBans(env, f).flow.world)
      && StepBans(env, f).flow.world == f.world.(bans := StepBans(env, f).flow.world.bans)
      && BansOf(StepBans(env, f).flow.world, env.layer.stage.value.manager)
         == BansOf(f.world, env.layer.stage.value.manager)
  {
    hide Pass, StageAnswer, Bypassed;
  }

  lemma BypassedBanArm(env: Env, f: Flow)
    requires env.layer.stage.Some? && Bypassed(f.route, "ip_ban")
    ensures StepBans(env, f) == Continue(f)
  {
    hide Finish, BanDecision;
  }

  lemma BansTrail(env: Env, f: Flow, g: Flow, extra: set<string>)
    requires SilentBansChangeNothing(env.engine)
    requires env.layer.stage.Some? && Close(extra, env.layer.stage.value.manager, 1, f, g)
    ensures Trails(extra, env.layer.stage.value.manager, 2, StepBans(env, f), StepBans(env, g))
  {
    hide StepBans, SilentBansChangeNothing;
    if Bypassed(f.route, "ip_ban") { BypassedBanArm(env, f); } else { SilentBanArm(env, f); }
    if Bypassed(g.route, "ip_ban") { BypassedBanArm(env, g); } else { SilentBanArm(env, g); }
  }

  lemma GeoTrails(env: Env, m: IpBanManager, f: Flow, g: Flow, extra: set<string>)
    requires Close(extra, m, 2, f, g)
    ensures Trails(extra, m, 3, StepGeo(env, f), StepGeo(env, g))
  {
    hide Pass;
  }

  lemma CloudDecisionTrails(env: Env, m: IpBanManager, f: Flow, g: Flow, extra: set<string>, selectors: Option<Selectors>)
    requires Close(extra, m, 3, f, g)
    ensures Trails(extra, m, 4, CloudDecision(env, f, selectors), CloudDecision(env, g, selectors))
    ensures CloudDecision(env, f, selectors).Continue? ==> Close(extra, m, 4, CloudDecision(env, f, selectors).flow, g)
  {
    hide Pass;
  }

  lemma CloudTrails(env: Env, m: IpBanManager, f: Flow, g: Flow, extra: set<string>)
    requires Close(extra, m, 3, f, g)
    ensures Trails(extra, m, 4, StepCloud(env, f), StepCloud(env, g))
  {
    hide Pass, CloudDecision;
    CloudDecisionTrails(env, m, f, g, extra, None);
    CloudDecisionTrails(env, m, f, g, extra, env.engine.parseSelectors(f.route.value.blockCloudProviders));
  }

  lemma RouteAgentsTrail(env: Env, m: IpBanManager, f: Flow, g: Flow, extra: set<string>)
    requires Close(extra, m, 4, f, g)
    ensures Trails(extra, m, 5, StepRouteAgents(env, f), StepRouteAgents(env, g))
  {
    hide Pass;
  }

  lemma AgentTrails(env: Env, m: IpBanManager, f: Flow, g: Flow, extra: set<string>)
    requires AgentEasesWithoutFinding(env.layer)
    requires Close(extra, m, 5, f, g)
    ensures Trails(extra, m, 6, StepAgent(env, f), StepAgent(env, g))
  {
    hide Pass;
    if env.layer.userAgent.Some? {
      var q := UserAgentInput(f.facts.ip, f.facts.gate, f.facts.path, f.facts.userAgent, f.verdict);
      assert UserAgentInput(g.facts.ip, g.facts.gate, g.facts.path, g.facts.userAgent, None) == q.(finding := None);
    }
  }

  lemma CarrierTiersTrail(env: Env, m: IpBanManager, f: Flow, g: Flow, extra: set<string>)
    requires Close(extra, m, 6, f, g)
    ensures Trails(extra, m, 7, StepCarrierTiers(env, f), StepCarrierTiers(env, g))
  {
    hide Pass;
  }

  /** The tiers let the request pass: they are bypassed or have no answer. */
  predicate PassesTiers(env: Env, f: Flow)
    requires env.layer.stage.Some?
  {
    Bypassed(f.route, "rate_limit") || TierDecision(env, f, env.layer.stage.value).1.None?
  }

  /** The proviso for a gate the larger set skips. */
  predicate GateNotNeeded(f: Flow, g: Flow)
  {
    || !Bypassed(g.route, "ip") || Bypassed(f.route, "ip")
    || Bypassed(g.route, "rate_limit")
    || !Unfiltered(f.parts.extensions.gate) || g.parts.extensions.gate == f.parts.extensions.gate
  }

  lemma TiersEase(env: Env, f: Flow, g: Flow, extra: set<string>)
    requires TiersEaseWithoutFinding(env.engine) && TiersPassUnderAnyGate(env.engine)
    requires env.layer.stage.Some? && Close(extra, env.layer.stage.value.manager, 7, f, g)
    requires GateNotNeeded(f, g)
    requires PassesTiers(env, f)
    ensures PassesTiers(env, g)
  {
    var stage := env.layer.stage.value;
    if !Bypassed(g.route, "rate_limit") {
      var s := TierStores(f.world.windows, f.world.counts, BansOf(f.world, stage.manager));
      var q := TierQuestion(f);
      assert env.engine.decideTiers(stage.knobs, s, env.now, q).1.None?;
      assert env.engine.decideTiers(stage.knobs, s, env.now, q.(finding := None)).1.None?;
      var eased := if g.verdict.None? then q.(finding := None) else q;
      assert env.engine.decideTiers(stage.knobs, s, env.now, eased).1.None?;
      assert TierQuestion(g) == eased.(gate := g.parts.extensions.gate);
      if Unfiltered(q.gate) { assert TierQuestion(g) == eased; }
      assert env.engine.decideTiers(stage.knobs, s, env.now, TierQuestion(g)).1.None?;
    }
  }

  /** The tier arm goes on exactly when the tiers let the request pass, and keeps what the last checks read. */
  lemma TiersGoOn(env: Env, f: Flow)
    requires env.layer.stage.Some?
    ensures StepTiers(env, f).Continue? <==> PassesTiers(env, f)
    ensures StepTiers(env, f).Continue? ==>
      var g := StepTiers(env, f).flow;
      && g.parts == f.parts && g.facts == f.facts && g.route == f.route && g.buffered == f.buffered
      && g.tiers == f.tiers && g.verdict == f.verdict && g.skipIpLists == f.skipIpLists
      && g.skipCountries == f.skipCountries && g.world.stages == f.world.stages
  {
    hide Pass, StageAnswer;
  }

  lemma LastChecksTrail(env: Env, f: Flow, g: Flow, extra: set<string>)
    requires SameRequest(extra, f, g) && g.world.stages.customChecks == f.world.stages.customChecks
    requires g.verdict == f.verdict || g.verdict.None?
    requires StepThreat(env, f).Continue? && StepCustomRequest(env, StepThreat(env, f).flow).Continue?
    ensures StepThreat(env, g).Continue? && StepCustomRequest(env, StepThreat(env, g).flow).Continue?
  {
    hide Pass;
  }

  /** Arm `n` of the screening, the carrier's tiers included. */
  const SCREENED: seq<Arm> := SCREENING + [CarrierTiers]

  lemma StepTrails(n: nat, env: Env, f: Flow, g: Flow, extra: set<string>)
    requires n < 7
    requires SilentBansChangeNothing(env.engine) && AgentEasesWithoutFinding(env.layer)
    requires env.layer.stage.Some? && Close(extra, env.layer.stage.value.manager, n, f, g)
    ensures Trails(extra, env.layer.stage.value.manager, n + 1, Step(SCREENED[n], env, f), Step(SCREENED[n], env, g))
  {
    hide Step, StepScan, StepBans, StepGeo, StepCloud, StepRouteAgents, StepAgent, StepCarrierTiers, Close, Trails;
    if n < 3 {
      DispatchScan(env, f);
      DispatchScan(env, g);
    } else {
      DispatchCloud(env, f);
      DispatchCloud(env, g);
    }
    var m := env.layer.stage.value.manager;
    match n {
      case 0 => ScanTrails(env, m, f, g, extra);
      case 1 => BansTrail(env, f, g, extra);
      case 2 => GeoTrails(env, m, f, g, extra);
      case 3 => CloudTrails(env, m, f, g, extra);
      case 4 => RouteAgentsTrail(env, m, f, g, extra);
      case 5 => AgentTrails(env, m, f, g, extra);
      case 6 => CarrierTiersTrail(env, m, f, g, extra);
    }
  }

  lemma {:induction false} RunTrails(n: nat, env: Env, f: Flow, g: Flow, extra: set<string>)
    requires n <= 7
    requires SilentBansChangeNothing(env.engine) && AgentEasesWithoutFinding(env.layer)
    requires env.layer.stage.Some? && Close(extra, env.layer.stage.value.manager, n, f, g)
    ensures Trails(extra, env.layer.stage.value.manager, 7, Run(SCREENED[n..], env, f), Run(SCREENED[n..], env, g))
    decreases 7 - n
  {
    hide Step, Close, SilentBansChangeNothing, AgentEasesWithoutFinding;
    if n < 7 {
      StepTrails(n, env, f, g, extra);
      assert SCREENED[n..][0] == SCREENED[n] && SCREENED[n..][1..] == SCREENED[n + 1..];
      if Step(SCREENED[n], env, f).Continue? {
        RunTrails(n + 1, env, Step(SCREENED[n], env, f).flow, Step(SCREENED[n], env, g).flow, extra);
      }
    }
  }

  /** What a run through the last checks says about each of them. */
  lemma LastChecks(env: Env, f: Flow)
    ensures Run([TierArm, ThreatBlock, CustomRequestArm], env, f).Continue?
            <==> StepTiers(env, f).Continue?
                 && StepThreat(env, StepTiers(env, f).flow).Continue?
                 && StepCustomRequest(env, StepThreat(env, StepTiers(env, f).flow).flow).Continue?
  {
    hide Step, StepTiers, StepThreat, StepCustomRequest;
    assert [TierArm, ThreatBlock, CustomRequestArm] == [TierArm] + ([ThreatBlock] + ([CustomRequestArm] + []));
    RunFirst(TierArm, [ThreatBlock] + ([CustomRequestArm] + []), env, f);
    DispatchSettlement(env, f);
    if StepTiers(env, f).Continue? {
      var g := StepTiers(env, f).flow;
      RunFirst(ThreatBlock, [CustomRequestArm] + [], env, g);
      DispatchSettlement(env, g);
      if StepThreat(env, g).Continue? {
        RunFirst(CustomRequestArm, [], env, StepThreat(env, g).flow);
        DispatchSettlement(env, StepThreat(env, g).flow);
      }
    }
  }

  lemma LastRunDecides(env: Env, f: Flow, g: Flow, extra: set<string>)
    requires env.layer.stage.Some? && Close(extra, env.layer.stage.value.manager, 7, f, g)
    requires Run([TierArm, ThreatBlock, CustomRequestArm], env, f).Continue?
    ensures Run([TierArm, ThreatBlock, CustomRequestArm], env, g).Continue? <==> PassesTiers(env, g)
    ensures PassesTiers(env, f)
  {
    hide StepTiers, StepThreat, StepCustomRequest, Run, PassesTiers;
    LastChecks(env, f);
    LastChecks(env, g);
    TiersGoOn(env, f);
    TiersGoOn(env, g);
    if StepTiers(env, g).Continue? {
      LastChecksTrail(env, StepTiers(env, f).flow, StepTiers(env, g).flow, extra);
    }
  }

  // ---- the theorem ------------------------------------------------------------------------------

  /** The request with this route attached. */
  function Carrying(parts: Parts, r: RouteConfig): Parts
  {
    parts.(extensions := parts.extensions.(route := Some(r)))
  }

  /** The flow behind the route, if the request gets there. */
  lemma FrontOf(env: Env, parts: Parts, w: World, r: RouteConfig)
    requires !Excluded(env.layer, parts)
    ensures var f := Start(Carrying(parts, r), w);
      Run([ExcludedPath, Preflight, ResolveRoute], env, f) ==
        if StepPreflight(env, f).Continue? then Continue(f.(route := Some(r))) else StepPreflight(env, f)
  {
    hide Step, StepPreflight;
    var f := Start(Carrying(parts, r), w);
    assert [ExcludedPath, Preflight, ResolveRoute] == [ExcludedPath] + ([Preflight] + ([ResolveRoute] + []));
    RunFirst(ExcludedPath, [Preflight] + ([ResolveRoute] + []), env, f);
    DispatchEnds(env, f);
    NotExcluded(env, f);
    RunFirst(Preflight, [ResolveRoute] + [], env, f);
    RunFirst(ResolveRoute, [], env, f);
    PreflightPassesUnchanged(env, f);
  }

  lemma PreflightIgnoresTheRoute(env: Env, parts: Parts, w: World, r: RouteConfig, q: RouteConfig)
    ensures StepPreflight(env, Start(Carrying(parts, r), w)).Continue?
            <==> StepPreflight(env, Start(Carrying(parts, q), w)).Continue?
  {
    hide InsertHeaders, PreflightPairs, FindPair, EqIgnoreCase;
  }

  /** In front of the scan. */
  lemma UnscannedFollows(env: Env, parts: Parts, w: World, r: RouteConfig, extra: set<string>)
    requires !Excluded(env.layer, parts)
    ensures Follows(extra,
      Run([ExcludedPath, Preflight, ResolveRoute] + UNSCANNED, env, Start(Carrying(parts, r), w)),
      Run([ExcludedPath, Preflight, ResolveRoute] + UNSCANNED, env, Start(Carrying(parts, Eased(r, extra)), w)))
  {
    hide Step, StepPreflight;
    var f, g := Start(Carrying(parts, r), w), Start(Carrying(parts, Eased(r, extra)), w);
    var front := [ExcludedPath, Preflight, ResolveRoute];
    FrontOf(env, parts, w, r);
    FrontOf(env, parts, w, Eased(r, extra));
    PreflightIgnoresTheRoute(env, parts, w, r, Eased(r, extra));
    RunAppend(front, UNSCANNED, env, f);
    RunAppend(front, UNSCANNED, env, g);
    if StepPreflight(env, f).Continue? {
      RunFollows(UNSCANNED, env, f.(route := Some(r)), g.(route := Some(Eased(r, extra))), extra);
    }
  }

  lemma SplitBefore()
    ensures BEFORE_FORWARD == ([ExcludedPath, Preflight, ResolveRoute] + UNSCANNED)
                              + (SCREENED + [TierArm, ThreatBlock, CustomRequestArm])
    ensures BEFORE_FORWARD[..TIERS_AT] == ([ExcludedPath, Preflight, ResolveRoute] + UNSCANNED) + SCREENED
  {
  }

  /**
   What a caller can check beforehand about the exemption: the gate is asked under
   the larger set if it was before, or the tiers are bypassed, or the gate exempts
   nobody, or it says no more than the request said on arrival.
   */
  predicate ExemptionKept(env: Env, parts: Parts, r: RouteConfig, extra: set<string>)
  {
    var q, left := Eased(r, extra), GateLeft(env, Carrying(parts, r));
    || !Bypassed(Some(q), "ip") || Bypassed(Some(r), "ip")
    || Bypassed(Some(q), "rate_limit")
    || !Unfiltered(left) || left == parts.extensions.gate
  }

  /** A bypassed gate leaves the request as it arrived. */
  lemma BypassedGateLeaves(env: Env, parts: Parts, q: RouteConfig)
    requires Bypassed(Some(q), "ip")
    ensures GateLeft(env, Carrying(parts, q)) == parts.extensions.gate
  {
  }

  /** Both runs get through the screening, closely related. */
  lemma ThroughScreening(env: Env, parts: Parts, w: World, r: RouteConfig, extra: set<string>)
    requires SilentBansChangeNothing(env.engine) && AgentEasesWithoutFinding(env.layer)
    requires env.layer.stage.Some? && !Excluded(env.layer, parts)
    requires Run(BEFORE_FORWARD, env, Start(Carrying(parts, r), w)).Continue?
    ensures var o := Run(BEFORE_FORWARD[..TIERS_AT], env, Start(Carrying(parts, r), w));
      var p := Run(BEFORE_FORWARD[..TIERS_AT], env, Start(Carrying(parts, Eased(r, extra)), w));
      && o.Continue? && p.Continue? && Close(extra, env.layer.stage.value.manager, 7, o.flow, p.flow)
  {
    hide Step, Bypassed, Unfiltered, SilentBansChangeNothing, AgentEasesWithoutFinding;
    var f, g := Start(Carrying(parts, r), w), Start(Carrying(parts, Eased(r, extra)), w);
    var front := [ExcludedPath, Preflight, ResolveRoute] + UNSCANNED;
    var last := [TierArm, ThreatBlock, CustomRequestArm];
    SplitBefore();
    RunAppend(front, SCREENED + last, env, f);
    RunAppend(front, SCREENED, env, f);
    RunAppend(front, SCREENED, env, g);
    UnscannedFollows(env, parts, w, r, extra);
    var f1, g1 := Run(front, env, f).flow, Run(front, env, g).flow;
    RunAppend(SCREENED, last, env, f1);
    assert SCREENED[0..] == SCREENED;
    RunTrails(0, env, f1, g1, extra);
  }

  lemma RouteAtTiers(env: Env, parts: Parts, w: World, r: RouteConfig)
    requires !Excluded(env.layer, parts)
    ensures var o := Run(BEFORE_FORWARD[..TIERS_AT], env, Start(Carrying(parts, r), w));
      o.Continue? ==> o.flow.route == Some(r)
  {
    hide Step;
    Positions();
    if Run(BEFORE_FORWARD[..TIERS_AT], env, Start(Carrying(parts, r), w)).Continue? {
      PrefixFlow(TIERS_AT, env, Carrying(parts, r), w);
    }
  }

  lemma FollowsToTheEnd(env: Env, parts: Parts, w: World, r: RouteConfig, extra: set<string>)
    requires SilentBansChangeNothing(env.engine) && AgentEasesWithoutFinding(env.layer)
    requires TiersEaseWithoutFinding(env.engine) && TiersPassUnderAnyGate(env.engine)
    requires env.layer.stage.Some? && !Excluded(env.layer, parts)
    requires ExemptionKept(env, parts, r, extra)
    requires Run(BEFORE_FORWARD, env, Start(Carrying(parts, r), w)).Continue?
    ensures Run(BEFORE_FORWARD, env, Start(Carrying(parts, Eased(r, extra)), w)).Continue?
  {
    hide Step, Run, Bypassed, Unfiltered, GateLeft, SilentBansChangeNothing, AgentEasesWithoutFinding,
      TiersEaseWithoutFinding, TiersPassUnderAnyGate, PassesTiers;
    var q := Eased(r, extra);
    var f, g := Start(Carrying(parts, r), w), Start(Carrying(parts, q), w);
    var front, last := BEFORE_FORWARD[..TIERS_AT], [TierArm, ThreatBlock, CustomRequestArm];
    ThroughScreening(env, parts, w, r, extra);
    SplitBefore();
    assert BEFORE_FORWARD == front + last;
    RunAppend(front, last, env, f);
    RunAppend(front, last, env, g);
    var f2, g2 := Run(front, env, f).flow, Run(front, env, g).flow;
    RouteAtTiers(env, parts, w, r);
    GateAt(TIERS_AT, env, Carrying(parts, r), w);
    GateAt(TIERS_AT, env, Carrying(parts, q), w);
    if Bypassed(Some(q), "ip") { BypassedGateLeaves(env, parts, q); }
    LastRunDecides(env, f2, g2, extra);
    TiersEase(env, f2, g2, extra);
  }

  /**
   Bypass monotonicity. If the request reaches the wrapped service under a route,
   it still does when names are added to the route's bypass set, as long as the
   larger set costs it no exemption.
   */
  lemma MoreBypassesNeverBlock(env: Env, parts: Parts, w: World, r: RouteConfig, extra: set<string>)
    requires SilentBansChangeNothing(env.engine) && AgentEasesWithoutFinding(env.layer)
    requires TiersEaseWithoutFinding(env.engine) && TiersPassUnderAnyGate(env.engine)
    requires env.layer.stage.Some?
    requires Call(env, Carrying(parts, r), w).Done? && Reaches(Call(env, Carrying(parts, r), w).exit)
    requires ExemptionKept(env, parts, r, extra)
    ensures Call(env, Carrying(parts, Eased(r, extra)), w).Done?
    ensures Reaches(Call(env, Carrying(parts, Eased(r, extra)), w).exit)
  {
    hide Step, Call, Run, ExemptionKept, SilentBansChangeNothing, AgentEasesWithoutFinding,
      TiersEaseWithoutFinding, TiersPassUnderAnyGate;
    var q := Eased(r, extra);
    if Excluded(env.layer, parts) {
      ExcludedPathForwardsEmptyBody(env, Carrying(parts, q), w);
    } else {
      ReachesThroughForward(env, Carrying(parts, r), w);
      ReachesThroughForward(env, Carrying(parts, q), w);
      FollowsToTheEnd(env, parts, w, r, extra);
    }
  }

  /**
   With nothing asked of the tiers: if the request reaches the
   wrapped service under a route, then under any larger bypass set it gets as far
   as the tiers, and it reaches the wrapped service if and only if they let it
   pass without the gate decision and the finding it may have lost on the way.
   */
  lemma LargerSetStopsOnlyAtTheTiers(env: Env, parts: Parts, w: World, r: RouteConfig, extra: set<string>)
    requires SilentBansChangeNothing(env.engine) && AgentEasesWithoutFinding(env.layer)
    requires env.layer.stage.Some? && !Excluded(env.layer, parts)
    requires Call(env, Carrying(parts, r), w).Done? && Reaches(Call(env, Carrying(parts, r), w).exit)
    ensures var q := Carrying(parts, Eased(r, extra));
      var o := Run(BEFORE_FORWARD[..TIERS_AT], env, Start(q, w));
      && o.Continue? && Call(env, q, w).Done?
      && (Reaches(Call(env, q, w).exit) <==> PassesTiers(env, o.flow))
  {
    hide Step, Call, Bypassed, Unfiltered, SilentBansChangeNothing, AgentEasesWithoutFinding, PassesTiers;
    var f, g := Start(Carrying(parts, r), w), Start(Carrying(parts, Eased(r, extra)), w);
    ReachesThroughForward(env, Carrying(parts, r), w);
    ReachesThroughForward(env, Carrying(parts, Eased(r, extra)), w);
    CallAnswers(env, Carrying(parts, Eased(r, extra)), w);
    ThroughScreening(env, parts, w, r, extra);
    SplitBefore();
    var front := BEFORE_FORWARD[..TIERS_AT];
    var last := [TierArm, ThreatBlock, CustomRequestArm];
    assert BEFORE_FORWARD == front + last;
    RunAppend(front, last, env, f);
    RunAppend(front, last, env, g);
    LastRunDecides(env, Run(front, env, f).flow, Run(front, env, g).flow, extra);
  }

  // ---- the proviso is exact ----------------------------------------------------------------------

  type TierRule = (StageKnobs, TierStores, nat, TierInput) -> (TierStores, Option<StageResponse>)

  /** The same service over an engine with another tier rule. */
  function WithTiers(env: Env, rule: TierRule): Env
  {
    env.(engine := env.engine.(decideTiers := rule))
  }

  /** A tier rule that throttles everyone but the bearers of one gate decision. */
  function OnlyFor(gate: Option<GateDecision>): TierRule
  {
    (k: StageKnobs, s: TierStores, now: nat, q: TierInput) =>
      (s, if q.gate == gate then None else Some(StageResponse(429, "Too many requests", None, Some(60))))
  }

  /** The run gets to the tiers with the same flow, whatever they would say. */
  lemma FrontIgnoresTiers(env: Env, rule: TierRule, parts: Parts, w: World)
    ensures Run(BEFORE_FORWARD[..TIERS_AT], WithTiers(env, rule), Start(parts, w))
            == Run(BEFORE_FORWARD[..TIERS_AT], env, Start(parts, w))
  {
    hide Run;
    var t, front := Twins(env, WithTiers(env, rule), 0), BEFORE_FORWARD[..TIERS_AT];
    forall x | x in front ensures SameFor(x, t) {
      var j :| 0 <= j < TIERS_AT && BEFORE_FORWARD[j] == x;
      ArmStandsInPlace(j);
    }
    SameRun(front, t, Start(parts, w));
  }

  lemma LastChecksIgnoreTiers(env: Env, rule: TierRule, f: Flow)
    ensures StepThreat(WithTiers(env, rule), f).Continue? <==> StepThreat(env, f).Continue?
    ensures StepThreat(env, f).Continue? ==> StepThreat(WithTiers(env, rule), f).flow == StepThreat(env, f).flow == f
    ensures StepCustomRequest(WithTiers(env, rule), f).Continue? <==> StepCustomRequest(env, f).Continue?
  {
    hide StepCustomRequest, Block;
    var t := Twins(env, WithTiers(env, rule), 0);
    ThreatAlike(t, f, f);
    CustomRequestAlike(t, f, f);
    var v := BlockHook(env.layer, f.world);
    AnswersEnd(env, f.(world := v), 400, ErrorBody(env.layer, 400, BLOCKED_MESSAGE));
    AnswersEnd(t.b, f.(world := v), 400, ErrorBody(env.layer, 400, BLOCKED_MESSAGE));
  }

  lemma GateIgnoresTiers(env: Env, rule: TierRule, parts: Parts)
    ensures GateLeft(WithTiers(env, rule), parts) == GateLeft(env, parts)
  {
    hide Bypassed;
  }

  /** What the engine promises, with this tier rule. */
  ghost predicate Promises(env: Env)
  {
    && SilentBansChangeNothing(env.engine) && AgentEasesWithoutFinding(env.layer)
    && TiersEaseWithoutFinding(env.engine) && TiersPassUnderAnyGate(env.engine)
  }

  lemma OnlyForPromises(env: Env, gate: Option<GateDecision>)
    requires SilentBansChangeNothing(env.engine) && AgentEasesWithoutFinding(env.layer) && Unfiltered(gate)
    ensures Promises(WithTiers(env, OnlyFor(gate)))
  {
  }

  /** From a flow the rule lets pass, the run goes on as it did under the engine's own rule. */
  lemma StillPassesLast(env: Env, rule: TierRule, f: Flow)
    requires env.layer.stage.Some? && f.route.Some?
    requires Run([TierArm, ThreatBlock, CustomRequestArm], env, f).Continue?
    requires PassesTiers(WithTiers(env, rule), f)
    ensures Run([TierArm, ThreatBlock, CustomRequestArm], WithTiers(env, rule), f).Continue?
  {
    hide StepTiers, StepThreat, StepCustomRequest, Run, PassesTiers;
    var e := WithTiers(env, rule);
    LastChecks(env, f);
    LastChecks(e, f);
    TiersGoOn(env, f);
    TiersGoOn(e, f);
    var g, h := StepTiers(env, f).flow, StepTiers(e, f).flow;
    assert Eased(f.route.value, {}) == f.route.value;
    LastChecksTrail(env, g, h, {});
    LastChecksIgnoreTiers(env, rule, h);
    LastChecksIgnoreTiers(env, rule, g);
  }

  /** Under the rule the route's own set still forwards: the bearer of the exemption passes. */
  lemma ExemptStillForwarded(env: Env, parts: Parts, w: World, r: RouteConfig)
    requires env.layer.stage.Some? && !Excluded(env.layer, parts)
    requires Call(env, Carrying(parts, r), w).Done? && Reaches(Call(env, Carrying(parts, r), w).exit)
    ensures var e := WithTiers(env, OnlyFor(GateLeft(env, Carrying(parts, r))));
      Call(e, Carrying(parts, r), w).Done? && Reaches(Call(e, Carrying(parts, r), w).exit)
  {
    hide Step, Call, Run, GateLeft, FindingOf, TiersOf, Bypassed;
    var p, gate := Carrying(parts, r), GateLeft(env, Carrying(parts, r));
    var e, front, last := WithTiers(env, OnlyFor(gate)), BEFORE_FORWARD[..TIERS_AT], [TierArm, ThreatBlock, CustomRequestArm];
    ReachesThroughForward(env, p, w);
    ReachesThroughForward(e, p, w);
    SplitBefore();
    assert BEFORE_FORWARD == front + last;
    RunAppend(front, last, env, Start(p, w));
    RunAppend(front, last, e, Start(p, w));
    FrontIgnoresTiers(env, OnlyFor(gate), p, w);
    RouteAtTiers(env, parts, w, r);
    TiersAreAskedAbout(e, p, w);
    GateIgnoresTiers(env, OnlyFor(gate), p);
    StillPassesLast(env, OnlyFor(gate), Run(front, env, Start(p, w)).flow);
  }

  /** Without the proviso there is a tier rule, with every promise kept, under which the larger set blocks. */
  lemma LostExemptionCanBlock(env: Env, parts: Parts, w: World, r: RouteConfig, extra: set<string>)
    requires SilentBansChangeNothing(env.engine) && AgentEasesWithoutFinding(env.layer)
    requires env.layer.stage.Some? && !Excluded(env.layer, parts)
    requires Call(env, Carrying(parts, r), w).Done? && Reaches(Call(env, Carrying(parts, r), w).exit)
    requires !ExemptionKept(env, parts, r, extra)
    ensures var e := WithTiers(env, OnlyFor(GateLeft(env, Carrying(parts, r))));
      && Promises(e)
      && Call(e, Carrying(parts, r), w).Done? && Reaches(Call(e, Carrying(parts, r), w).exit)
      && Call(e, Carrying(parts, Eased(r, extra)), w).Done?
      && !Reaches(Call(e, Carrying(parts, Eased(r, extra)), w).exit)
  {
    hide Step, Call, Run, GateLeft, FindingOf, TiersOf, SilentBansChangeNothing, AgentEasesWithoutFinding,
      TiersEaseWithoutFinding, TiersPassUnderAnyGate, Bypassed;
    var q, gate := Eased(r, extra), GateLeft(env, Carrying(parts, r));
    var e := WithTiers(env, OnlyFor(gate));
    OnlyForPromises(env, gate);
    ExemptStillForwarded(env, parts, w, r);
    LargerSetStopsOnlyAtTheTiers(e, parts, w, r, extra);
    TiersAreAskedAbout(e, Carrying(parts, q), w);
    BypassedGateLeaves(e, parts, q);
    RouteAtTiers(e, parts, w, q);
  }

  /** Under this tier rule the larger set forwards whatever the route's own set forwards. */
  ghost predicate Monotone(env: Env, parts: Parts, w: World, r: RouteConfig, extra: set<string>)
  {
    var o, p := Call(env, Carrying(parts, r), w), Call(env, Carrying(parts, Eased(r, extra)), w);
    Promises(env) && o.Done? && Reaches(o.exit) ==> p.Done? && Reaches(p.exit)
  }

  /**
   The proviso is exact. For a request the route forwards, the larger set forwards it
   too under every tier rule that keeps the promises, if and only if the exemption
   is kept, which a caller can tell beforehand.
   */
  lemma BypassExactly(env: Env, parts: Parts, w: World, r: RouteConfig, extra: set<string>)
    requires SilentBansChangeNothing(env.engine) && AgentEasesWithoutFinding(env.layer)
    requires env.layer.stage.Some? && !Excluded(env.layer, parts)
    requires Call(env, Carrying(parts, r), w).Done? && Reaches(Call(env, Carrying(parts, r), w).exit)
    ensures ExemptionKept(env, parts, r, extra)
            <==> forall rule: TierRule :: Monotone(WithTiers(env, rule), parts, w, r, extra)
  {
    hide Call, GateLeft, SilentBansChangeNothing, AgentEasesWithoutFinding, TiersEaseWithoutFinding, TiersPassUnderAnyGate;
    if ExemptionKept(env, parts, r, extra) {
      forall rule: TierRule ensures Monotone(WithTiers(env, rule), parts, w, r, extra) {
        var e := WithTiers(env, rule);
        GateIgnoresTiers(env, rule, Carrying(parts, r));
        CallAnswers(e, Carrying(parts, r), w);
        if Promises(e) && Reaches(Call(e, Carrying(parts, r), w).exit) {
          MoreBypassesNeverBlock(e, parts, w, r, extra);
        }
      }
    } else {
      LostExemptionCanBlock(env, parts, w, r, extra);
      assert !Monotone(WithTiers(env, OnlyFor(GateLeft(env, Carrying(parts, r)))), parts, w, r, extra);
    }
  }
}
