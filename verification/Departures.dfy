/**
 Where the code does something else than its documentation says, on concrete
 services and with the exact conditions: the checks of a route carrier do not
 consult passive mode, a skipped address gate can cost a request its exemption from
 the rate limit, and the checks in front of the tiers do not hear the gate at all.
 */
module Departures {
  import opened Admission
  import opened BodyBuffer
  import opened Bypass
  import opened Engine
  import opened Forwarding
  import opened Frames
  import opened Http
  import opened Layer
  import opened Noninterference
  import opened Octets
  import opened Pipeline
  import opened Questions
  import opened Readings
  import opened Runs
  import opened Wrappers

  // ---- passive mode ------------------------------------------------------------------------

  /** The same service in the other mode. */
  function Switched(env: Env, passive: bool): Env
  {
    env.(layer := env.layer.(passiveMode := passive))
  }

  /** The arms that read the route carrier and no stage. */
  predicate FromCarrier(arm: Arm)
  {
    arm in {UsageRules, RouteIps, RouteCountries, BufferArm, RouteHeaders, RouteReferrer, RouteValidators,
            RouteWindow, RouteAgents, CarrierTiers}
  }

  lemma PassIgnoresPassiveMode(env: Env, b: bool, input: ProcessorInput, lane: Lane, response: Response, w: World)
    ensures Pass(Switched(env, b), input, lane, response, w) == Pass(env, input, lane, response, w)
  {
    hide InsertHeaders;
  }

  lemma AnswersIgnorePassiveMode(env: Env, b: bool)
    ensures forall f: Flow, r: Response :: Finish(Switched(env, b), f, r) == Finish(env, f, r)
    ensures forall f: Flow :: Fail(Switched(env, b), f) == Fail(env, f)
    ensures forall f: Flow, status: U16, body: string ::
              Block(Switched(env, b), f, status, body) == Block(env, f, status, body)
  {
    hide Pass, Switched;
    forall f: Flow, r: Response ensures Finish(Switched(env, b), f, r) == Finish(env, f, r) {
      PassIgnoresPassiveMode(env, b, InputFromParts(f.parts), GeneratedLane, r, f.world);
    }
  }

  lemma AddressChecksIgnorePassiveMode(arm: Arm, env: Env, b: bool, f: Flow)
    requires arm in {UsageRules, RouteIps, RouteCountries, CarrierTiers}
    ensures Step(arm, Switched(env, b), f) == Step(arm, env, f)
  {
    hide Finish, Fail, Block, Bypassed;
    AnswersIgnorePassiveMode(env, b);
  }

  lemma ContentChecksIgnorePassiveMode(arm: Arm, env: Env, b: bool, f: Flow)
    requires arm in {BufferArm, RouteHeaders, RouteReferrer, RouteValidators, RouteWindow, RouteAgents}
    ensures Step(arm, Switched(env, b), f) == Step(arm, env, f)
  {
    hide Finish, Fail, Block, EffectiveCap, Buffer;
    AnswersIgnorePassiveMode(env, b);
    CapIgnoresPassiveMode(env, b, f.route);
  }

  /** The route's own checks answer in passive mode exactly as they do otherwise. */
  lemma CarrierArmsIgnorePassiveMode(arm: Arm, env: Env, b: bool, f: Flow)
    requires FromCarrier(arm)
    ensures Step(arm, Switched(env, b), f) == Step(arm, env, f)
  {
    hide Step, Switched;
    if arm in {UsageRules, RouteIps, RouteCountries, CarrierTiers} {
      AddressChecksIgnorePassiveMode(arm, env, b, f);
    } else {
      ContentChecksIgnorePassiveMode(arm, env, b, f);
    }
  }

  lemma CapIgnoresPassiveMode(env: Env, b: bool, route: Option<RouteConfig>)
    ensures EffectiveCap(Switched(env, b).layer, route) == EffectiveCap(env.layer, route)
  {
  }

  /** A request whose route denies its address. */
  ghost predicate RouteDenies(env: Env, parts: Parts, r: RouteConfig)
  {
    && ListsAddresses(r) && !Bypassed(Some(r), "ip") && parts.extensions.clientIp.Some?
    && var gate := env.engine.parseRouteIps(r.ipWhitelist, r.ipBlacklist);
       gate.Some? && gate.value.denies(parts.extensions.clientIp.value)
  }

  lemma DeniedByRoute(env: Env, parts: Parts, g: Flow, r: RouteConfig)
    requires RouteDenies(env, parts, r) && g.route == Some(r) && g.facts.ip == parts.extensions.clientIp
    ensures Step(RouteIps, env, g) == Block(env, g, 403, FORBIDDEN_MESSAGE)
  {
    hide Block, Bypassed;
  }

  lemma UsageOutcome(env: Env, parts: Parts, w: World, r: RouteConfig)
    requires parts.extensions.route == Some(r)
    ensures var g := Start(parts, w).(route := Some(r));
      var o := Step(UsageRules, env, g);
      if UsageBans(env, parts, w)
      then o.Done? && o.exit.Blocked? && BodyText(o.exit.response) == ACTIVITY_BANNED_MESSAGE
      else o.Continue? && o.flow == g.(world := o.flow.world) && (env.layer.processor.None? ==> o.flow == g)
  {
    hide Block;
    var g := Start(parts, w).(route := Some(r));
    if env.layer.processor.Some? {
      var (u, _) := UsagePass(env, g, env.layer.processor.value, r.behaviorRules);
      BlockBody(env, g.(world := u), 403, ACTIVITY_BANNED_MESSAGE);
    }
  }

  /**
   An address the route denies is blocked in every mode, passive mode included, and
   with the fixed message: no custom body takes its place. If the usage rules ban the
   visitor first, that is the answer instead.
   */
  lemma DeniedRouteAlwaysBlocks(env: Env, parts: Parts, w: World, r: RouteConfig)
    requires RouteDenies(env, parts, r) && Fresh(env, Carrying(parts, r), w)
    ensures var o := Call(env, Carrying(parts, r), w);
      && o.Done? && o.exit.Blocked?
      && BodyText(o.exit.response) ==
         (if UsageBans(env, Carrying(parts, r), w) then ACTIVITY_BANNED_MESSAGE else FORBIDDEN_MESSAGE)
      && (env.layer.processor.None? ==> o == Done(Blocked(PlainText(403, FORBIDDEN_MESSAGE)), w))
  {
    hide Step, StepPreflight, UsageBans, Block;
    var p := Carrying(parts, r);
    var f := Start(p, w);
    var g := f.(route := Some(r));
    var front, rest := [ExcludedPath, Preflight, ResolveRoute], ORDER[5..];
    FrontFlow(env, p, w);
    assert ORDER == front + ([UsageRules] + ([RouteIps] + rest));
    RunAppend(front, [UsageRules] + ([RouteIps] + rest), env, f);
    RunFirst(UsageRules, [RouteIps] + rest, env, g);
    UsageOutcome(env, p, w, r);
    if !UsageBans(env, p, w) {
      var h := Step(UsageRules, env, g).flow;
      RunFirst(RouteIps, rest, env, h);
      DeniedByRoute(env, parts, h, r);
      BlockBody(env, h, 403, FORBIDDEN_MESSAGE);
      if env.layer.processor.None? { PlainBlock(env, h, 403, FORBIDDEN_MESSAGE); }
    } else {
      NoProcessorNoBan(env, p, w);
    }
  }

  lemma PlainBlock(env: Env, f: Flow, status: U16, body: string)
    requires env.layer.processor.None? && ValidStatus(status)
    ensures Block(env, f, status, body) == Done(Blocked(PlainText(status, body)), f.world)
  {
  }

  lemma NoProcessorNoBan(env: Env, parts: Parts, w: World)
    requires UsageBans(env, parts, w)
    ensures env.layer.processor.Some?
  {
  }

  // ---- concrete services -------------------------------------------------------------------------

  /** An engine that finds nothing wrong, except that the tiers throttle whom no gate exempts. */
  function Calm(): Engine
  {
    Engine(
      (k: StageKnobs, t: BanTable, now: nat, who: Option<Ip>) => (t, None),
      (k: StageKnobs, s: TierStores, now: nat, q: TierInput) =>
        (s, if Unfiltered(q.gate) then None else Some(StageResponse(429, "Too many requests", None, Some(60)))),
      (k: ProcessorKnobs, s: BehaviorState, now: nat, endpoint: string, ip: string, rules: seq<Handle>) => (s, false),
      (k: ProcessorKnobs, s: BehaviorState, now: nat, q: RequestBits, status: U16) => (s, ResponseBits(status, [])),
      (verb: string, pairs: seq<(string, string)>) => false,
      (c: CorsConfig, origin: Option<string>, verb: Option<string>, headers: Option<string>) =>
        PreflightAnswer(200, "", []),
      (name: string, value: string) => Some((name, value)),
      (white: Option<seq<string>>, black: Option<seq<string>>) => None,
      (white: Option<seq<string>>, black: Option<seq<string>>) => CountryGate({}, {}),
      (ip: Ip, gate: CountryGate, handler: Handle) => false,
      (rules: HeaderAuthRules, find: string -> Option<string>) => None,
      (referer: Option<string>, domains: seq<string>) => ReferrerAllowed,
      (checks: seq<Handle>, facts: Facts, body: Option<Octets>) => None,
      (octets: Octets) => true,
      (window: map<string, string>, now: nat) => true,
      (global: bool, route: Option<bool>) => false,
      (surfaces: Surfaces, exclusions: Option<Handle>) => NoThreat,
      (names: seq<string>) => None,
      (patterns: seq<string>) => None)
  }

  const WHITELISTED := IpGate((ip: Ip) => Allowed(GateDecision(true, false)))

  /** A layer with a rate-limit stage and, perhaps, an address gate. */
  function GatedLayer(gate: Option<IpGate>, stage: RateLimitStage): GuardLayer
  {
    New(1024).(ipGate := gate, stage := Some(stage))
  }

  /** A route without rules of its own, but for its bypass set. */
  function PlainRoute(bypassed: set<string>): RouteConfig
  {
    RouteConfig(bypassed, [], None, None, None, None, false, None,
                HeaderAuthRules([], None, false, None, None, None, None),
                None, [], None, true, [], [], Tier(None))
  }

  const VISITOR := Parts("GET", Uri(None, None, "/", None), [], Extensions(Some("10.0.0.1"), None, None, None, None))

  function CalmEnv(gate: Option<IpGate>, geo: Option<GeoStage>, stage: RateLimitStage, inner: Inner): Env
  {
    Env(Calm(), GatedLayer(gate, stage).(geoBlocking := geo), inner, 0, [])
  }

  /** The visitor on a plain route is neither excluded nor a preflight. */
  lemma CalmFresh(env: Env, parts: Parts, w: World)
    requires env.layer.excludePaths == [] && env.layer.processor.None?
    ensures Fresh(env, parts, w)
  {
  }

  /** No gate, or one that whitelists everyone. */
  ghost predicate KnownGate(gate: Option<IpGate>)
  {
    gate.Some? ==> forall ip: Ip :: gate.value.evaluate(ip) == Allowed(GateDecision(true, false))
  }

  /** Nothing an arm asks of the request itself is missing. */
  lemma CalmMeets(arm: Arm, e: Env, stage: RateLimitStage, bypassed: set<string>, w: World)
    requires e == CalmEnv(e.layer.ipGate, e.layer.geoBlocking, stage, e.inner) && KnownGate(e.layer.ipGate)
    ensures Meets(arm, e, Carrying(VISITOR, PlainRoute(bypassed)), w)
  {
    hide Bypassed, Http.Extract, FactsSent, HeaderPairs, FindPair, ScanSurfaces, RouteTakesOver;
  }

  /** No stage has an answer to the visitor, but for a geo stage and the tiers. */
  lemma CalmQuiet(arm: Arm, e: Env, stage: RateLimitStage, bypassed: set<string>, w: World)
    requires e == CalmEnv(e.layer.ipGate, e.layer.geoBlocking, stage, e.inner)
    requires arm == GeoArm ==> e.layer.geoBlocking.None?
    requires arm == TierArm ==> Unfiltered(GateLeft(e, Carrying(VISITOR, PlainRoute(bypassed))))
    ensures Quiet(arm, e, Carrying(VISITOR, PlainRoute(bypassed)), w)
  {
    hide Bypassed, Http.Extract, FactsSent, HeaderPairs, FindPair, GateLeft, TableAsked, TableDecided, TiersOf, FindingOf, Unfiltered;
  }

  /** The visitor gets as far as arm `n`. */
  lemma CalmPasses(n: nat, e: Env, stage: RateLimitStage, bypassed: set<string>, w: World)
    requires 3 <= n <= ALL && e == CalmEnv(e.layer.ipGate, e.layer.geoBlocking, stage, e.inner)
    requires KnownGate(e.layer.ipGate) && (n <= GEO_AT || e.layer.geoBlocking.None?)
    requires n <= TIERS_AT || Unfiltered(GateLeft(e, Carrying(VISITOR, PlainRoute(bypassed))))
    ensures Passes(n, e, Carrying(VISITOR, PlainRoute(bypassed)), w)
  {
    hide Run, Meets, Quiet, Fresh, Place, GateLeft;
    var p := Carrying(VISITOR, PlainRoute(bypassed));
    CalmFresh(e, p, w);
    forall k: nat | k < n ensures Lets(BEFORE_FORWARD[k], e, p, w) {
      PlacesOf(k);
      CalmMeets(BEFORE_FORWARD[k], e, stage, bypassed, w);
      CalmQuiet(BEFORE_FORWARD[k], e, stage, bypassed, w);
    }
    PassesExactly(n, e, p, w);
  }

  lemma PlacesOf(k: nat)
    requires k < ALL
    ensures (BEFORE_FORWARD[k] == GeoArm <==> k == GEO_AT) && (BEFORE_FORWARD[k] == TierArm <==> k == TIERS_AT)
  {
    ArmStandsInPlace(k);
  }

  // ---- a passive service that blocks -------------------------------------------------------------

  /** An engine that denies every route address, with a tier rule that never answers. */
  function Strict(): Engine
  {
    Calm().(parseRouteIps := (white: Option<seq<string>>, black: Option<seq<string>>) =>
              Some(RouteIpGate((ip: Ip) => true, false)),
            decideTiers := (k: StageKnobs, s: TierStores, now: nat, q: TierInput) => (s, None))
  }

  /** The strict engine's stages have nothing to say either. */
  lemma StrictIsQuiet(arm: Arm, e: Env, parts: Parts, w: World)
    requires e.engine == Strict() && e.layer.stage.Some?
    requires e.layer == New(1024).(passiveMode := true, stage := e.layer.stage)
    ensures Quiet(arm, e, parts, w)
  {
    hide Bypassed, Http.Extract, FactsSent, HeaderPairs, FindPair, ScanSurfaces, RouteTakesOver, TableDecided, TableAsked, TiersOf,
      FindingOf, GateLeft, CountriesTakenOver;
  }

  /** Everything is passive, no stage has an answer, and the visitor still gets 403. */
  lemma PassiveModeBlocksAVisitor(stage: RateLimitStage, inner: Inner, w: World)
    requires stage.knobs.passiveMode
    ensures var e := Env(Strict(), New(1024).(passiveMode := true, stage := Some(stage)), inner, 0, []);
      var p := Carrying(VISITOR, PlainRoute({}).(ipBlacklist := Some(["10.0.0.1"])));
      && Passive(e.layer) && AllQuiet(e, p, w)
      && Call(e, p, w) == Done(Blocked(PlainText(403, FORBIDDEN_MESSAGE)), w)
  {
    hide Call, Quiet;
    var e := Env(Strict(), New(1024).(passiveMode := true, stage := Some(stage)), inner, 0, []);
    var r := PlainRoute({}).(ipBlacklist := Some(["10.0.0.1"]));
    CalmFresh(e, Carrying(VISITOR, r), w);
    forall arm: Arm ensures Quiet(arm, e, Carrying(VISITOR, r), w) {
      StrictIsQuiet(arm, e, Carrying(VISITOR, r), w);
    }
    DeniedRouteAlwaysBlocks(e, VISITOR, w, r);
  }

  // ---- a skipped gate --------------------------------------------------------------------------

  /** The tiers of the calm engine, on a flow that carries this decision. */
  lemma CalmTiers(e: Env, f: Flow)
    requires e.engine == Calm() && e.layer.processor.None? && e.layer.stage.Some?
    requires !Bypassed(f.route, "rate_limit")
    ensures var o := Step(TierArm, e, f);
      if Unfiltered(f.parts.extensions.gate) then o.Continue?
      else o.Done? && o.exit.Blocked? && o.exit.response.status == 429
  {
    hide Bypassed;
  }

  /** The visitor reaches the wrapped service exactly when the gate left an exemption. */
  lemma CalmCall(e: Env, stage: RateLimitStage, bypassed: set<string>, w: World)
    requires e == CalmEnv(e.layer.ipGate, None, stage, e.inner) && KnownGate(e.layer.ipGate)
    requires !Bypassed(Some(PlainRoute(bypassed)), "rate_limit")
    ensures var p := Carrying(VISITOR, PlainRoute(bypassed));
      var o := Call(e, p, w);
      o.Done? && if Unfiltered(GateLeft(e, p)) then Reaches(o.exit)
                 else o.exit.Blocked? && o.exit.response.status == 429
  {
    hide Step, Run, Bypassed, GateLeft, Unfiltered, KnownGate;
    var p := Carrying(VISITOR, PlainRoute(bypassed));
    ReachedPasses(e, p, w);
    if Unfiltered(GateLeft(e, p)) {
      CalmPasses(ALL, e, stage, bypassed, w);
    } else {
      CalmPasses(TIERS_AT, e, stage, bypassed, w);
      GateAt(TIERS_AT, e, p, w);
      PrefixFlow(TIERS_AT, e, p, w);
      CalmTiers(e, FlowAt(TIERS_AT, e, p, w));
      Positions();
      EndsAt(TIERS_AT, e, p, w);
    }
  }

  lemma GateSays(stage: RateLimitStage, inner: Inner)
    ensures var e := CalmEnv(Some(WHITELISTED), None, stage, inner);
      && Unfiltered(GateLeft(e, Carrying(VISITOR, PlainRoute({}))))
      && !Unfiltered(GateLeft(e, Carrying(VISITOR, PlainRoute({"ip"}))))
    ensures !Unfiltered(GateLeft(CalmEnv(None, None, stage, inner), Carrying(VISITOR, PlainRoute({}))))
  {
  }

  lemma CalmPromises(e: Env)
    requires e.engine == Calm() && e.layer.userAgent.None?
    ensures Promises(e)
  {
  }

  /**
   Adding `ip` alone to the bypass set turns a forwarded request into a throttled
   one, on a service that keeps every promise.
   */
  lemma SkippedGateCostsTheExemption(stage: RateLimitStage, inner: Inner, w: World)
    ensures var e, r := CalmEnv(Some(WHITELISTED), None, stage, inner), PlainRoute({});
      var before, after := Call(e, Carrying(VISITOR, r), w), Call(e, Carrying(VISITOR, Eased(r, {"ip"})), w);
      && Promises(e)
      && before.Done? && Reaches(before.exit)
      && after.Done? && after.exit.Blocked? && after.exit.response.status == 429
  {
    hide Call, GateLeft;
    var e := CalmEnv(Some(WHITELISTED), None, stage, inner);
    assert Eased(PlainRoute({}), {"ip"}) == PlainRoute({"ip"});
    CalmPromises(e);
    GateSays(stage, inner);
    CalmCall(e, stage, {}, w);
    CalmCall(e, stage, {"ip"}, w);
  }

  /** Two layers that differ in a passing gate alone, and part at the tiers. */
  lemma RunsPartAtTheTiers(stage: RateLimitStage, inner: Inner, w: World)
    ensures var a, b := CalmEnv(Some(WHITELISTED), None, stage, inner), CalmEnv(None, None, stage, inner);
      var parts := Carrying(VISITOR, PlainRoute({}));
      && SameButGate(a, b) && GatePasses(a.layer, parts) && GatePasses(b.layer, parts)
      && Call(a, parts, w).Done? && Reaches(Call(a, parts, w).exit)
      && Call(b, parts, w).Done? && Call(b, parts, w).exit.Blocked?
  {
    hide Call, GateLeft;
    GateSays(stage, inner);
    CalmCall(CalmEnv(Some(WHITELISTED), None, stage, inner), stage, {}, w);
    CalmCall(CalmEnv(None, None, stage, inner), stage, {}, w);
  }

  // ---- the checks that do not hear the gate ------------------------------------------------------

  /** The same service with another geo stage. */
  function WithGeo(env: Env, geo: GeoStage): Env
  {
    env.(layer := env.layer.(geoBlocking := Some(geo)))
  }

  function WithCloud(env: Env, cloud: CloudStage): Env
  {
    env.(layer := env.layer.(cloud := Some(cloud)))
  }

  function WithAgent(env: Env, agent: UserAgentStage): Env
  {
    env.(layer := env.layer.(userAgent := Some(agent)))
  }

  /** A stage that skips whom a decision exempts, whatever it does with everyone else. */
  ghost predicate GeoHonours(geo: GeoStage)
  {
    forall s: Snapshot, ip: Option<Ip>, gate: Option<GateDecision> ::
      Unfiltered(gate) ==> geo.decide(s, ip, gate).1.None?
  }

  ghost predicate CloudHonours(cloud: CloudStage)
  {
    forall s: Snapshot, ip: Option<Ip>, gate: Option<GateDecision>, x: Option<Selectors> ::
      Unfiltered(gate) ==> cloud.decide(s, ip, gate, x).1.None?
  }

  ghost predicate AgentHonours(agent: UserAgentStage)
  {
    forall s: Snapshot, q: UserAgentInput :: Unfiltered(q.gate) ==> agent.decide(s, q).1.None?
  }

  /** Stages that skip exempted addresses and forbid all others. */
  const FORBIDDEN := StageResponse(403, "Forbidden", None, None)

  const HONOURING := GeoStage((s: Snapshot, ip: Option<Ip>, gate: Option<GateDecision>) =>
                                (s, if Unfiltered(gate) then None else Some(FORBIDDEN)))

  const HONOURING_CLOUD := CloudStage((s: Snapshot, ip: Option<Ip>, gate: Option<GateDecision>, x: Option<Selectors>) =>
                                        (s, if Unfiltered(gate) then None else Some(FORBIDDEN)))

  const HONOURING_AGENT := UserAgentStage((s: Snapshot, q: UserAgentInput) =>
                                            (s, if Unfiltered(q.gate) then None else Some(FORBIDDEN)))

  lemma TheyHonour()
    ensures GeoHonours(HONOURING) && CloudHonours(HONOURING_CLOUD) && AgentHonours(HONOURING_AGENT)
  {
  }

  /** Arms that read nothing in which the services differ pass the same requests. */
  lemma PassesAlike(n: nat, t: Twins, parts: Parts, w: World)
    requires n <= ALL && Twinned(t) && !Unsteady(t) && t.start == 0
    requires forall k: nat | k < n :: SameFor(BEFORE_FORWARD[k], t)
    ensures Passes(n, t.b, parts, w) <==> Passes(n, t.a, parts, w)
  {
    hide Run, SameFor;
    forall x | x in BEFORE_FORWARD[..n] ensures SameFor(x, t) {
      var j :| 0 <= j < n && BEFORE_FORWARD[j] == x;
    }
    SameRun(BEFORE_FORWARD[..n], t, Start(parts, w));
  }

  /** No arm in front of one of these stages reads it. */
  lemma FrontIgnoresStage(n: nat, a: Env, b: Env, parts: Parts, w: World)
    requires n <= ALL
    requires b == a.(layer := a.layer.(
                       geoBlocking := b.layer.geoBlocking, cloud := b.layer.cloud, userAgent := b.layer.userAgent))
    requires n > GEO_AT ==> b.layer.geoBlocking == a.layer.geoBlocking
    requires n > CLOUD_AT ==> b.layer.cloud == a.layer.cloud
    requires n > AGENT_AT ==> b.layer.userAgent == a.layer.userAgent
    ensures Passes(n, b, parts, w) <==> Passes(n, a, parts, w)
  {
    hide Passes;
    forall k: nat | k < n ensures SameFor(BEFORE_FORWARD[k], Twins(a, b, 0)) {
      ArmStandsInPlace(k);
    }
    PassesAlike(n, Twins(a, b, 0), parts, w);
  }

  /**
   What the geo check does with a request that gets to it: it asks about the decision
   the request carried on arrival. What the global gate says in the call plays no part.
   */
  lemma GeoPassesExactly(env: Env, parts: Parts, w: World)
    requires Passes(GEO_AT, env, parts, w)
    ensures Passes(CLOUD_AT, env, parts, w)
            <==> || Bypassed(RouteOf(env.layer, parts), "ip") || CountriesTakenOver(env, parts)
                 || env.layer.geoBlocking.None?
                 || env.layer.geoBlocking.value.decide(
                      w.stages.geo, parts.extensions.clientIp, parts.extensions.gate).1.None?
  {
    hide Passes, Step, Bypassed, RouteOf, CountriesTakenOver;
    Positions();
    PassesNext(GEO_AT, env, parts, w);
    GeoExactly(env, parts, w);
  }

  /** The same of the cloud check. */
  lemma CloudPassesExactly(env: Env, parts: Parts, w: World)
    requires Passes(CLOUD_AT, env, parts, w)
    ensures var route := RouteOf(env.layer, parts);
      Passes(22, env, parts, w)
      <==> || Bypassed(route, "clouds")
           || ((route.Some? ==> SelectorsParse(env.engine, route.value))
               && (env.layer.cloud.None?
                   || env.layer.cloud.value.decide(
                        w.stages.cloud, parts.extensions.clientIp, parts.extensions.gate,
                        SelectorsOf(env.engine, route)).1.None?))
  {
    hide Passes, Step, RouteOf, SelectorsOf;
    Positions();
    PassesNext(CLOUD_AT, env, parts, w);
    CloudExactly(env, parts, w);
  }

  /** The same of the user-agent check. */
  lemma AgentPassesExactly(env: Env, parts: Parts, w: World)
    requires Passes(AGENT_AT, env, parts, w)
    ensures Passes(24, env, parts, w)
            <==> || env.layer.userAgent.None?
                 || env.layer.userAgent.value.decide(
                      w.stages.userAgent,
                      UserAgentInput(parts.extensions.clientIp, parts.extensions.gate, parts.uri.path,
                                     HeaderOf(parts.headers, "user-agent"), FindingOf(env, parts))).1.None?
  {
    hide Passes, Step, RouteOf, FindingOf, HeaderOf;
    Positions();
    PassesNext(AGENT_AT, env, parts, w);
    AgentExactly(env, parts, w);
  }

  lemma GeoStagesShareTheRest(env: Env, geo: GeoStage, parts: Parts, w: World)
    requires Passes(GEO_AT, env, parts, w)
    ensures Passes(CLOUD_AT, WithGeo(env, geo), parts, w)
            <==> || Bypassed(RouteOf(env.layer, parts), "ip") || CountriesTakenOver(env, parts)
                 || geo.decide(w.stages.geo, parts.extensions.clientIp, parts.extensions.gate).1.None?
  {
    hide Passes, Bypassed;
    FrontIgnoresStage(GEO_AT, env, WithGeo(env, geo), parts, w);
    GeoPassesExactly(WithGeo(env, geo), parts, w);
  }

  /**
   Exactly when a whitelisted or exempt address can count on skipping the geo check.
   Of a request that gets to it: every geo stage that honours exemptions lets the
   request pass if and only if the check is bypassed, the route takes the countries
   over, or the request carried the exemption on arrival.
   */
  lemma GeoSkipsExactly(env: Env, parts: Parts, w: World)
    requires Passes(GEO_AT, env, parts, w)
    ensures (forall geo: GeoStage | GeoHonours(geo) :: Passes(CLOUD_AT, WithGeo(env, geo), parts, w))
            <==> || Bypassed(RouteOf(env.layer, parts), "ip") || CountriesTakenOver(env, parts)
                 || Unfiltered(parts.extensions.gate)
  {
    hide Passes, Bypassed, RouteOf, CountriesTakenOver, WithGeo;
    TheyHonour();
    GeoStagesShareTheRest(env, HONOURING, parts, w);
    forall geo: GeoStage
      ensures Passes(CLOUD_AT, WithGeo(env, geo), parts, w)
              <==> || Bypassed(RouteOf(env.layer, parts), "ip") || CountriesTakenOver(env, parts)
                   || geo.decide(w.stages.geo, parts.extensions.clientIp, parts.extensions.gate).1.None?
    {
      GeoStagesShareTheRest(env, geo, parts, w);
    }
  }

  lemma CloudStagesShareTheRest(env: Env, cloud: CloudStage, parts: Parts, w: World)
    requires Passes(CLOUD_AT, env, parts, w)
    ensures var route := RouteOf(env.layer, parts);
      Passes(22, WithCloud(env, cloud), parts, w)
      <==> || Bypassed(route, "clouds")
           || ((route.Some? ==> SelectorsParse(env.engine, route.value))
               && cloud.decide(w.stages.cloud, parts.extensions.clientIp, parts.extensions.gate,
                               SelectorsOf(env.engine, route)).1.None?)
  {
    hide Passes, Bypassed, SelectorsParse, SelectorsOf;
    FrontIgnoresStage(CLOUD_AT, env, WithCloud(env, cloud), parts, w);
    CloudPassesExactly(WithCloud(env, cloud), parts, w);
  }

  /** The same of the cloud check, where a route whose providers do not parse is answered in any case. */
  lemma CloudSkipsExactly(env: Env, parts: Parts, w: World)
    requires Passes(CLOUD_AT, env, parts, w)
    ensures var route := RouteOf(env.layer, parts);
      (forall cloud: CloudStage | CloudHonours(cloud) :: Passes(22, WithCloud(env, cloud), parts, w))
      <==> || Bypassed(route, "clouds")
           || ((route.Some? ==> SelectorsParse(env.engine, route.value)) && Unfiltered(parts.extensions.gate))
  {
    hide Passes, Bypassed, RouteOf, SelectorsParse, SelectorsOf, WithCloud;
    TheyHonour();
    CloudStagesShareTheRest(env, HONOURING_CLOUD, parts, w);
    forall cloud: CloudStage
      ensures var route := RouteOf(env.layer, parts);
        Passes(22, WithCloud(env, cloud), parts, w)
        <==> || Bypassed(route, "clouds")
             || ((route.Some? ==> SelectorsParse(env.engine, route.value))
                 && cloud.decide(w.stages.cloud, parts.extensions.clientIp, parts.extensions.gate,
                                 SelectorsOf(env.engine, route)).1.None?)
    {
      CloudStagesShareTheRest(env, cloud, parts, w);
    }
  }

  lemma AgentStagesShareTheRest(env: Env, agent: UserAgentStage, parts: Parts, w: World)
    requires Passes(AGENT_AT, env, parts, w)
    ensures Passes(24, WithAgent(env, agent), parts, w)
            <==> agent.decide(
                   w.stages.userAgent,
                   UserAgentInput(parts.extensions.clientIp, parts.extensions.gate, parts.uri.path,
                                  HeaderOf(parts.headers, "user-agent"), FindingOf(env, parts))).1.None?
  {
    hide Passes, Bypassed, HeaderOf, ScanSurfaces;
    FrontIgnoresStage(AGENT_AT, env, WithAgent(env, agent), parts, w);
    AgentPassesExactly(WithAgent(env, agent), parts, w);
  }

  /** The same of the user-agent check, which nothing bypasses. */
  lemma AgentSkipsExactly(env: Env, parts: Parts, w: World)
    requires Passes(AGENT_AT, env, parts, w)
    ensures (forall agent: UserAgentStage | AgentHonours(agent) :: Passes(24, WithAgent(env, agent), parts, w))
            <==> Unfiltered(parts.extensions.gate)
  {
    hide Passes, HeaderOf, FindingOf, WithAgent;
    TheyHonour();
    AgentStagesShareTheRest(env, HONOURING_AGENT, parts, w);
    var question := UserAgentInput(parts.extensions.clientIp, parts.extensions.gate, parts.uri.path,
                                   HeaderOf(parts.headers, "user-agent"), FindingOf(env, parts));
    forall agent: UserAgentStage
      ensures Passes(24, WithAgent(env, agent), parts, w) <==> agent.decide(w.stages.userAgent, question).1.None?
    {
      AgentStagesShareTheRest(env, agent, parts, w);
    }
  }

  /** A visitor the global gate whitelists is kept out by a geo stage that skips whitelisted addresses. */
  lemma WhitelistedYetBlocked(stage: RateLimitStage, inner: Inner, w: World)
    ensures var e := CalmEnv(Some(WHITELISTED), Some(HONOURING), stage, inner);
      var p := Carrying(VISITOR, PlainRoute({}));
      && GateLeft(e, p) == Some(GateDecision(true, false)) && GeoHonours(HONOURING)
      && Call(e, p, w).Done? && !Reaches(Call(e, p, w).exit)
  {
    hide Call, Run;
    var e := CalmEnv(Some(WHITELISTED), Some(HONOURING), stage, inner);
    var p := Carrying(VISITOR, PlainRoute({}));
    TheyHonour();
    CalmPasses(GEO_AT, e, stage, {}, w);
    GeoPassesExactly(e, p, w);
    ReachedPasses(e, p, w);
    if Passes(ALL, e, p, w) { PassedAt(CLOUD_AT, ALL, e, p, w); }
  }
}
