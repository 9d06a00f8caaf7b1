/**
 What a forwarded request has met: every requirement of its route that needs no
 stage, and the global address gate. Nothing reaches the wrapped service around
 them, in either mode.
 */
module Admission {
  import opened BanTables
  import opened BodyBuffer
  import opened Engine
  import opened Frames
  import opened Http
  import opened Layer
  import opened Octets
  import opened Pipeline
  import opened Readings
  import opened Runs
  import opened Wrappers

  // ---- the requirements of a route -------------------------------------------------------------

  predicate ListsAddresses(r: RouteConfig) { r.ipWhitelist.Some? || r.ipBlacklist.Some? }

  predicate ListsCountries(r: RouteConfig) { r.whitelistCountries.Some? || r.blockedCountries.Some? }

  predicate AddressAllowed(e: Engine, r: RouteConfig, ip: Option<Ip>)
  {
    !Bypassed(Some(r), "ip") && ListsAddresses(r) ==>
      var gate := e.parseRouteIps(r.ipWhitelist, r.ipBlacklist);
      gate.Some? && (ip.Some? ==> !gate.value.denies(ip.value))
  }

  predicate CountryAllowed(env: Env, r: RouteConfig, ip: Option<Ip>)
  {
    !Bypassed(Some(r), "ip") && ListsCountries(r) && ip.Some? && env.layer.geoHandler.Some? ==>
      !env.engine.countryBlocks(
        ip.value, env.engine.parseCountries(r.whitelistCountries, r.blockedCountries), env.layer.geoHandler.value)
  }

  /** Without an https stage the route's own flag is enforced, except in passive mode. */
  predicate SchemeAllowed(layer: GuardLayer, r: RouteConfig, scheme: string)
  {
    r.requireHttps && layer.https.None? && !layer.passiveMode ==> scheme == "https"
  }

  predicate HeadersMet(e: Engine, r: RouteConfig, headers: seq<Header>)
  {
    var rules := r.headerRules;
    rules.requiredHeaders != [] || rules.authRequired.Some? || rules.apiKeyRequired
    || rules.authorizationRequired.Some? ==>
      var pairs := HeaderPairs(headers);
      e.headersAuth(r.headerRules, name => FindPair(pairs, name)).None?
  }

  predicate ReferrerMet(e: Engine, r: RouteConfig, referer: Option<string>)
  {
    r.requireReferrer.Some? ==> e.referrer(referer, r.requireReferrer.value).ReferrerAllowed?
  }

  /** The body a check is shown: the client's, if there is one and it is text. */
  function BodySeen(e: Engine, content: Octets): Option<Octets>
  {
    if content != [] && e.isUtf8(content) then Some(content) else None
  }

  predicate ValidatorsMet(e: Engine, r: RouteConfig, facts: Facts, body: Octets)
  {
    r.customValidators != [] ==> e.validators(r.customValidators, facts, BodySeen(e, body)).None?
  }

  predicate WindowMet(env: Env, r: RouteConfig)
  {
    r.timeRestrictions.Some? ==> env.engine.withinWindow(r.timeRestrictions.value, env.now)
  }

  /** A blocked agent is let in by an exemption alone; a request that names no agent has the empty one. */
  predicate AgentAllowed(e: Engine, r: RouteConfig, gate: Option<GateDecision>, userAgent: Option<string>)
  {
    r.blockedUserAgents != []
    && !(gate.Some? && (gate.value.isWhitelisted || gate.value.isExempt)) ==>
      var filter := e.userAgentFilter(r.blockedUserAgents);
      filter.Some? && !filter.value.isBlocked(if userAgent.Some? then userAgent.value else "")
  }

  /** The request, as the client sent it, meets its route. */
  ghost predicate MeetsRoute(env: Env, parts: Parts, r: RouteConfig)
  {
    var who := parts.extensions.clientIp;
    && AddressAllowed(env.engine, r, who)
    && CountryAllowed(env, r, who)
    && SchemeAllowed(env.layer, r, if parts.uri.scheme.Some? then parts.uri.scheme.value else "http")
    && HeadersMet(env.engine, r, parts.headers)
    && ReferrerMet(env.engine, r, HeaderOf(parts.headers, "referer"))
    && ValidatorsMet(env.engine, r, FactsSent(parts), Content(env.frames))
    && WindowMet(env, r)
    && AgentAllowed(env.engine, r, parts.extensions.gate, HeaderOf(parts.headers, "user-agent"))
    && !r.rateLimits.InvalidTier?
  }

  // ---- the arms ----------------------------------------------------------------------------------

  lemma AnswersEnd(env: Env, f: Flow, status: U16, body: string)
    ensures Block(env, f, status, body).Done? && Fail(env, f).Done?
  {
    hide Pass;
  }

  lemma AddressArm(env: Env, f: Flow)
    ensures Step(RouteIps, env, f).Continue?
            <==> (f.route.Some? ==> AddressAllowed(env.engine, f.route.value, f.facts.ip))
  {
    hide Block, Fail, Bypassed;
    AnswersEnd(env, f, 403, FORBIDDEN_MESSAGE);
  }

  lemma CountryArm(env: Env, f: Flow)
    ensures Step(RouteCountries, env, f).Continue?
            <==> (f.route.Some? ==> CountryAllowed(env, f.route.value, f.facts.ip))
  {
    hide Block, Fail, Bypassed;
    AnswersEnd(env, f, 403, FORBIDDEN_MESSAGE);
  }

  lemma SchemeArm(env: Env, f: Flow)
    requires Step(HttpsArm, env, f).Continue?
    ensures f.route.Some? ==> SchemeAllowed(env.layer, f.route.value, f.facts.scheme)
  {
    hide Pass, HttpsQuestion, RedirectAnswer;
  }

  lemma HeadersArmPasses(env: Env, f: Flow)
    ensures Step(RouteHeaders, env, f).Continue?
            <==> (f.route.Some? ==> HeadersMet(env.engine, f.route.value, f.parts.headers))
  {
    hide Block, HeaderPairs, FindPair;
    if f.route.Some? {
      var pairs := HeaderPairs(f.parts.headers);
      var answer := env.engine.headersAuth(f.route.value.headerRules, name => FindPair(pairs, name));
      if answer.Some? { AnswersEnd(env, f, answer.value.status, answer.value.body); }
    }
  }

  lemma ReferrerArmPasses(env: Env, f: Flow)
    ensures Step(RouteReferrer, env, f).Continue?
            <==> (f.route.Some? ==> ReferrerMet(env.engine, f.route.value, f.facts.referer))
  {
    hide Block;
    AnswersEnd(env, f, 403, REFERRER_MISSING_BODY);
    AnswersEnd(env, f, 403, REFERRER_INVALID_BODY);
  }

  lemma ValidatorsArmPasses(env: Env, f: Flow)
    requires f.buffered == Frozen(Content(env.frames))
    ensures Step(RouteValidators, env, f).Continue?
            <==> (f.route.Some? ==> ValidatorsMet(env.engine, f.route.value, f.facts, Content(env.frames)))
  {
    hide Block, Content;
    if f.route.Some? {
      var answer := env.engine.validators(f.route.value.customValidators, f.facts, Utf8View(env.engine, f.buffered));
      if answer.Some? { AnswersEnd(env, f, CustomStatus(answer.value), ""); }
    }
  }

  lemma WindowArmPasses(env: Env, f: Flow)
    ensures Step(RouteWindow, env, f).Continue? <==> (f.route.Some? ==> WindowMet(env, f.route.value))
  {
    hide Block;
    AnswersEnd(env, f, 403, TIME_WINDOW_BODY);
  }

  lemma AgentArmPasses(env: Env, f: Flow)
    ensures Step(RouteAgents, env, f).Continue?
            <==> (f.route.Some? ==> AgentAllowed(env.engine, f.route.value, f.facts.gate, f.facts.userAgent))
  {
    hide Block, Fail;
    AnswersEnd(env, f, 403, AGENT_BODY);
  }

  lemma TierArmPasses(env: Env, f: Flow)
    ensures Step(CarrierTiers, env, f).Continue? <==> (f.route.Some? ==> !f.route.value.rateLimits.InvalidTier?)
  {
    hide Fail;
    AnswersEnd(env, f, 403, "");
  }

  // ---- whole runs --------------------------------------------------------------------------------

  /** The run gets past the first `n` arms. */
  ghost predicate Passes(n: nat, env: Env, parts: Parts, w: World)
  {
    n <= |BEFORE_FORWARD| && !Excluded(env.layer, parts) && Run(BEFORE_FORWARD[..n], env, Start(parts, w)).Continue?
  }

  /** What it carries there. */
  ghost function FlowAt(n: nat, env: Env, parts: Parts, w: World): Flow
    requires Passes(n, env, parts, w)
  {
    Run(BEFORE_FORWARD[..n], env, Start(parts, w)).flow
  }

  /** Arm `k` of such a run was asked about the client's request and let it pass. */
  lemma PassedAt(k: nat, n: nat, env: Env, parts: Parts, w: World)
    requires 3 <= k < n && Passes(n, env, parts, w)
    ensures Passes(k, env, parts, w)
    ensures var g := FlowAt(k, env, parts, w);
      && Step(BEFORE_FORWARD[k], env, g).Continue?
      && g.route == RouteOf(env.layer, parts) && g.facts == Extract(parts) && g.facts == FactsSent(parts)
      && g.parts == WithGate(parts, g.parts.extensions.gate)
  {
    hide Step;
    SplitAt(k, n, env, Start(parts, w));
    PrefixFlow(k, env, parts, w);
  }

  lemma BufferArmHolds(env: Env, f: Flow)
    requires Step(BufferArm, env, f).Continue?
    ensures Step(BufferArm, env, f).flow.buffered == Frozen(Content(env.frames))
  {
    hide Step, Content, Frozen, EffectiveCap, Buffer;
    BufferStep(env, f);
    BufferMeetsSpec(env.frames, EffectiveCap(env.layer, f.route));
  }

  /** Behind the buffer the flow holds the client's body. */
  lemma BodyAt(n: nat, env: Env, parts: Parts, w: World)
    requires BUFFER_AT < n && Passes(n, env, parts, w)
    ensures FlowAt(n, env, parts, w).buffered == Frozen(Content(env.frames))
  {
    hide Step, Run, Content, Frozen, EffectiveCap, RouteOf, Extract, FactsSent, Buffer, Excluded, WithGate;
    PassedAt(BUFFER_AT, n, env, parts, w);
    SplitAt(BUFFER_AT, n, env, Start(parts, w));
    Positions();
    var g := FlowAt(BUFFER_AT, env, parts, w);
    BufferArmHolds(env, g);
    AfterKeeps(BUFFER_AT, n, env, Step(BufferArm, env, g).flow);
  }

  /** The requirements checked in front of the body. */
  lemma MeetsEarly(env: Env, parts: Parts, w: World, r: RouteConfig)
    requires Passes(ALL, env, parts, w) && RouteOf(env.layer, parts) == Some(r)
    ensures AddressAllowed(env.engine, r, FactsSent(parts).ip) && CountryAllowed(env, r, FactsSent(parts).ip)
    ensures SchemeAllowed(env.layer, r, FactsSent(parts).scheme)
  {
    hide Step, Run, AddressAllowed, CountryAllowed, SchemeAllowed, Extract, FactsSent, Excluded;
    PassedAt(4, ALL, env, parts, w);
    AddressArm(env, FlowAt(4, env, parts, w));
    PassedAt(5, ALL, env, parts, w);
    CountryArm(env, FlowAt(5, env, parts, w));
    PassedAt(8, ALL, env, parts, w);
    SchemeArm(env, FlowAt(8, env, parts, w));
  }

  /** The requirements on headers, referrer, body and time. */
  lemma MeetsContent(env: Env, parts: Parts, w: World, r: RouteConfig)
    requires Passes(ALL, env, parts, w) && RouteOf(env.layer, parts) == Some(r)
    ensures HeadersMet(env.engine, r, parts.headers) && ReferrerMet(env.engine, r, FactsSent(parts).referer)
    ensures ValidatorsMet(env.engine, r, FactsSent(parts), Content(env.frames)) && WindowMet(env, r)
  {
    hide Step, Run, HeadersMet, ReferrerMet, ValidatorsMet, WindowMet, Extract, FactsSent, Excluded;
    PassedAt(10, ALL, env, parts, w);
    HeadersArmPasses(env, FlowAt(10, env, parts, w));
    PassedAt(12, ALL, env, parts, w);
    ReferrerArmPasses(env, FlowAt(12, env, parts, w));
    PassedAt(14, ALL, env, parts, w);
    BodyAt(14, env, parts, w);
    ValidatorsArmPasses(env, FlowAt(14, env, parts, w));
    PassedAt(16, ALL, env, parts, w);
    WindowArmPasses(env, FlowAt(16, env, parts, w));
  }

  /** The requirements checked behind the scan. */
  lemma MeetsLate(env: Env, parts: Parts, w: World, r: RouteConfig)
    requires Passes(ALL, env, parts, w) && RouteOf(env.layer, parts) == Some(r)
    ensures AgentAllowed(env.engine, r, FactsSent(parts).gate, FactsSent(parts).userAgent) && !r.rateLimits.InvalidTier?
  {
    hide Step, Run, AgentAllowed, Extract, FactsSent, Excluded;
    PassedAt(22, ALL, env, parts, w);
    AgentArmPasses(env, FlowAt(22, env, parts, w));
    PassedAt(24, ALL, env, parts, w);
    TierArmPasses(env, FlowAt(24, env, parts, w));
  }

  lemma ReachedPasses(env: Env, parts: Parts, w: World)
    requires !Excluded(env.layer, parts)
    ensures Call(env, parts, w).Done?
    ensures Reaches(Call(env, parts, w).exit) <==> Passes(ALL, env, parts, w)
  {
    hide Call, Run;
    ReachesThroughForward(env, parts, w);
    Positions();
  }

  /**
   A forwarded request meets its route, in either mode: every requirement of the
   route that needs no stage holds of the request as the client sent it.
   */
  lemma ForwardedMeetsItsRoute(env: Env, parts: Parts, w: World, r: RouteConfig)
    requires !Excluded(env.layer, parts) && RouteOf(env.layer, parts) == Some(r)
    requires Call(env, parts, w).Done? && Reaches(Call(env, parts, w).exit)
    ensures MeetsRoute(env, parts, r)
  {
    hide Call, Run;
    ReachedPasses(env, parts, w);
    MeetsEarly(env, parts, w, r);
    MeetsContent(env, parts, w, r);
    MeetsLate(env, parts, w, r);
  }

  /** The whole call, seen from a position it gets to. */
  lemma CallFrom(n: nat, env: Env, parts: Parts, w: World)
    requires n < ALL && Passes(n, env, parts, w)
    ensures Call(env, parts, w) ==
      var o := Step(BEFORE_FORWARD[n], env, FlowAt(n, env, parts, w));
      if o.Continue? then Run(ORDER[n + 1..], env, o.flow) else o
  {
    hide Step;
    Positions();
    var f := Start(parts, w);
    assert ORDER == BEFORE_FORWARD[..n] + ([BEFORE_FORWARD[n]] + ORDER[n + 1..]);
    RunAppend(BEFORE_FORWARD[..n], [BEFORE_FORWARD[n]] + ORDER[n + 1..], env, f);
    RunFirst(BEFORE_FORWARD[n], ORDER[n + 1..], env, FlowAt(n, env, parts, w));
  }

  /** The arm a run gets to and that answers it answers the call. */
  lemma EndsAt(n: nat, env: Env, parts: Parts, w: World)
    requires n < ALL && Passes(n, env, parts, w)
    requires Step(BEFORE_FORWARD[n], env, FlowAt(n, env, parts, w)).Done?
    ensures Call(env, parts, w) == Step(BEFORE_FORWARD[n], env, FlowAt(n, env, parts, w))
  {
    hide Step, Call, Run, Passes, FlowAt;
    CallFrom(n, env, parts, w);
  }

  // ---- the address gate --------------------------------------------------------------------------

  /** The route's own whitelist takes the place of the global lists. */
  predicate RouteTakesOver(e: Engine, route: Option<RouteConfig>)
  {
    route.Some? && !Bypassed(route, "ip") && ListsAddresses(route.value) &&
    var gate := e.parseRouteIps(route.value.ipWhitelist, route.value.ipBlacklist);
    gate.Some? && gate.value.whitelistConfigured
  }

  predicate GateConsulted(env: Env, parts: Parts)
  {
    var route := RouteOf(env.layer, parts);
    && !Bypassed(route, "ip") && !RouteTakesOver(env.engine, route)
    && env.layer.ipGate.Some? && parts.extensions.clientIp.Some?
  }

  /** What the gate says about the client. */
  function GateVerdictOf(env: Env, parts: Parts): GateVerdict
    requires GateConsulted(env, parts)
  {
    env.layer.ipGate.value.evaluate(parts.extensions.clientIp.value)
  }

  /** The gate lets the client pass, or the mode does. */
  predicate GateOpen(env: Env, parts: Parts)
  {
    GateConsulted(env, parts) && GateVerdictOf(env, parts).Denied? ==> env.layer.passiveMode
  }

  /** The decision the request carries behind the gate. */
  function GateLeft(env: Env, parts: Parts): Option<GateDecision>
  {
    if GateConsulted(env, parts) && GateVerdictOf(env, parts).Allowed?
    then Some(GateVerdictOf(env, parts).decision)
    else parts.extensions.gate
  }

  /** The skip flag the gate reads is the route's own whitelist. */
  lemma SkipFlag(env: Env, f: Flow)
    requires !f.skipIpLists && Step(RouteIps, env, f).Continue?
    ensures Step(RouteIps, env, f).flow == f.(skipIpLists := RouteTakesOver(env.engine, f.route))
  {
    hide Block, Fail, Bypassed;
    AnswersEnd(env, f, 403, FORBIDDEN_MESSAGE);
  }

  lemma GateArm(env: Env, f: Flow, parts: Parts)
    requires f.route == RouteOf(env.layer, parts) && f.parts == parts
    requires f.skipIpLists == RouteTakesOver(env.engine, f.route)
    ensures Step(GlobalGate, env, f).Continue? <==> GateOpen(env, parts)
    ensures Step(GlobalGate, env, f).Continue? ==>
      Step(GlobalGate, env, f).flow == f.(parts := WithGate(parts, GateLeft(env, parts)))
  {
    hide Pass, Bypassed, RouteTakesOver, RouteOf;
  }

  /** In front of the gate nothing but the route has been filled in. */
  lemma FlowAtGate(env: Env, parts: Parts, w: World)
    requires Passes(GATE_AT, env, parts, w)
    ensures var g := FlowAt(GATE_AT, env, parts, w);
      g.parts == parts && g.skipIpLists == RouteTakesOver(env.engine, RouteOf(env.layer, parts))
  {
    hide Step, RouteTakesOver, RouteOf;
    var f, p := Start(parts, w), BEFORE_FORWARD[..GATE_AT];
    PassedAt(4, GATE_AT, env, parts, w);
    assert p == p[..4] + [RouteIps] + [RouteCountries];
    assert p[..4] == BEFORE_FORWARD[..4] == [ExcludedPath, Preflight, ResolveRoute, UsageRules];
    Through(p[..4], RouteIps, [RouteCountries], env, f);
    RunFrame(p[..4], env, f);
    var g := Run(p[..4], env, f).flow;
    SkipFlag(env, g);
    RunFrame([RouteCountries], env, Step(RouteIps, env, g).flow);
  }

  /** Behind the gate the request carries its decision, and it let the request pass. */
  lemma GateAt(n: nat, env: Env, parts: Parts, w: World)
    requires GATE_AT < n && Passes(n, env, parts, w)
    ensures FlowAt(n, env, parts, w).parts == WithGate(parts, GateLeft(env, parts))
    ensures GateOpen(env, parts)
  {
    hide Step, Run, GateLeft, GateOpen, RouteTakesOver, RouteOf, Extract, FactsSent;
    PassedAt(GATE_AT, n, env, parts, w);
    SplitAt(GATE_AT, n, env, Start(parts, w));
    FlowAtGate(env, parts, w);
    Positions();
    var g := FlowAt(GATE_AT, env, parts, w);
    GateArm(env, g, parts);
    AfterKeeps(GATE_AT, n, env, Step(GlobalGate, env, g).flow);
  }

  /**
   The global gate. A forwarded request was let pass by the gate, unless its
   route bypasses the gate or takes over, or the mode is passive; and the wrapped
   service finds exactly the gate's decision in the request, or what was there
   before when the gate was not asked.
   */
  lemma ForwardedThroughTheGate(env: Env, parts: Parts, w: World)
    requires !Excluded(env.layer, parts)
    requires Call(env, parts, w).Done? && Reaches(Call(env, parts, w).exit)
    ensures GateOpen(env, parts)
    ensures Call(env, parts, w).world.received
            == w.received + [Request(parts.(extensions := parts.extensions.(gate := GateLeft(env, parts))),
                                     Content(env.frames))]
  {
    hide Call, Run, GateLeft, GateOpen, RouteTakesOver, RouteOf, Extract, FactsSent, ForwardCall;
    ReachedPasses(env, parts, w);
    GateAt(ALL, env, parts, w);
    BodyAt(ALL, env, parts, w);
    ReachesThroughForward(env, parts, w);
    Positions();
    var g := FlowAt(ALL, env, parts, w);
    ForwardedRequest(env, g, Rebuilt(g.buffered));
    NothingReceivedBefore(env, parts, w);
  }

  lemma NothingReceivedBefore(env: Env, parts: Parts, w: World)
    requires Passes(ALL, env, parts, w)
    ensures FlowAt(ALL, env, parts, w).world.received == w.received
  {
    hide Step;
    Positions();
    RunFrame(BEFORE_FORWARD, env, Start(parts, w));
  }

  // ---- what the tiers are asked ------------------------------------------------------------------

  /** The finding of the scan, which only counts when detection is on. */
  function FindingOf(env: Env, parts: Parts): Option<ThreatFinding>
  {
    if !DetectionOff(env, parts) && ScanOf(env, parts).Threat? then Some(ScanOf(env, parts).finding) else None
  }

  /** The route's tier, or the one the application attached to the request. */
  function TiersOf(env: Env, parts: Parts): Option<RouteRateLimits>
  {
    var route := RouteOf(env.layer, parts);
    if route.Some? && route.value.rateLimits.Tier? && route.value.rateLimits.limits.Some?
    then route.value.rateLimits.limits
    else parts.extensions.tiers
  }

  /** The scan arm looks at the client's request, whatever the gate has left in it. */
  lemma ScannedAs(env: Env, parts: Parts, g: Flow)
    requires g.route == RouteOf(env.layer, parts) && g.parts == WithGate(parts, g.parts.extensions.gate)
    requires g.buffered == Frozen(Content(env.frames))
    ensures ScanSkipped(env, g) == DetectionOff(env, parts) && Scan(env, g) == ScanOf(env, parts)
  {
    hide ScanSurfaces, Bypassed, RouteOf, Frozen, Content;
    GateIsNotScanned(parts, g.parts.extensions.gate, g.buffered);
  }

  /** Behind the scan the flow holds its finding. */
  lemma FindingAt(n: nat, env: Env, parts: Parts, w: World)
    requires SCAN_AT < n && Passes(n, env, parts, w)
    ensures FlowAt(n, env, parts, w).verdict == FindingOf(env, parts)
  {
    hide Step, Run, Content, Frozen, RouteOf, Extract, FactsSent, Scan, ScanSkipped, ScanOf, DetectionOff, Excluded;
    PassedAt(SCAN_AT, n, env, parts, w);
    BodyAt(SCAN_AT, env, parts, w);
    SplitAt(SCAN_AT, n, env, Start(parts, w));
    Positions();
    var g := FlowAt(SCAN_AT, env, parts, w);
    ScanStep(env, g);
    ScannedAs(env, parts, g);
    AfterKeeps(SCAN_AT, n, env, Step(ScanArm, env, g).flow);
  }

  lemma CarrierTiersArm(env: Env, f: Flow)
    requires Step(CarrierTiers, env, f).Continue?
    ensures var route := f.route;
      Step(CarrierTiers, env, f).flow == f.(tiers :=
        if route.Some? && route.value.rateLimits.Tier? && route.value.rateLimits.limits.Some?
        then route.value.rateLimits.limits else f.parts.extensions.tiers)
  {
    hide Fail;
    AnswersEnd(env, f, 403, "");
  }

  /**
   The question put to the tiers: the client's address and path, the tier of the
   route or of the application, the decision the gate left behind and the finding
   of the scan. Unlike every stage in front of them, they see the gate's decision.
   */
  lemma TiersAreAskedAbout(env: Env, parts: Parts, w: World)
    requires Passes(TIERS_AT, env, parts, w)
    ensures TierQuestion(FlowAt(TIERS_AT, env, parts, w)) ==
            TierInput(parts.extensions.clientIp, parts.uri.path, TiersOf(env, parts),
                      GateLeft(env, parts), FindingOf(env, parts))
  {
    hide Step, Run, GateLeft, FindingOf, RouteOf;
    PassedAt(24, TIERS_AT, env, parts, w);
    SplitAt(24, TIERS_AT, env, Start(parts, w));
    GateAt(TIERS_AT, env, parts, w);
    FindingAt(TIERS_AT, env, parts, w);
    Positions();
    CarrierTiersArm(env, FlowAt(24, env, parts, w));
    LastBeforeTheTiers(env, parts, w);
  }

  lemma LastBeforeTheTiers(env: Env, parts: Parts, w: World)
    requires Passes(24, env, parts, w) && Passes(TIERS_AT, env, parts, w)
    ensures Step(CarrierTiers, env, FlowAt(24, env, parts, w)) == Continue(FlowAt(TIERS_AT, env, parts, w))
  {
    hide Step;
    assert BEFORE_FORWARD[..TIERS_AT] == BEFORE_FORWARD[..24] + [CarrierTiers];
    RunAppend(BEFORE_FORWARD[..24], [CarrierTiers], env, Start(parts, w));
    assert [CarrierTiers][1..] == [];
  }
}
