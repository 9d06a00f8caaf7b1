/**
 The fused pipeline and the standalone stack agree: folding the provided layers in
 reverse over the wrapped service answers like the fused call, under the
 hypotheses that switch off what only the fused service has.
 */
module Agreement {
  import opened BodyBuffer
  import opened Engine
  import opened Http
  import opened Layer
  import opened Octets
  import opened Pipeline
  import opened Runs
  import opened Stages
  import opened Wrappers

  // ---- the list the layer provides ---------------------------------------------------------

  /** One more arm: its layer, if it has one, goes to the end. */
  lemma Grow(done: seq<Arm>, x: Arm, l: GuardLayer, limits: Option<RateLimitStage>)
    ensures LayersFor(done + [x], l, limits) == LayersFor(done, l, limits) + LayerFor(x, l, limits)
  {
    hide LayerFor;
    LayersForAppend(done, [x], l, limits);
    assert [x][1..] == [];
    assert LayersFor([x], l, limits) == LayerFor(x, l, limits) + [];
  }

  /** The stages up to the authentication stage. */
  method EarlyLayers(l: GuardLayer, before: seq<StageLayer>, ghost limits: Option<RateLimitStage>)
    returns (layers: seq<StageLayer>)
    ensures layers == before + LayersFor([EmergencyMode, HttpsArm, BufferArm, RouteHeaders, HeadersArm], l, limits)
  {
    hide LayersFor;
    layers := before;
    ghost var done: seq<Arm> := [];
    LayerlessArms(done, l, limits);
    if l.emergency.Some? {
      layers := layers + [EmergencyLayer(l.emergency.value)];
    }
    Grow(done, EmergencyMode, l, limits);
    done := done + [EmergencyMode];
    assert layers == before + LayersFor(done, l, limits);
    if l.https.Some? {
      layers := layers + [HttpsLayer(l.https.value)];
    }
    Grow(done, HttpsArm, l, limits);
    done := done + [HttpsArm];
    assert layers == before + LayersFor(done, l, limits);
    Grow(done, BufferArm, l, limits);
    done := done + [BufferArm];
    Grow(done, RouteHeaders, l, limits);
    done := done + [RouteHeaders];
    if l.headersAuth.Some? {
      layers := layers + [HeadersAuthLayer(l.headersAuth.value)];
    }
    Grow(done, HeadersArm, l, limits);
    done := done + [HeadersArm];
    assert layers == before + LayersFor(done, l, limits);
    assert done == [EmergencyMode, HttpsArm, BufferArm, RouteHeaders, HeadersArm];
  }

  /** The referrer gate and the custom validators. */
  method GateLayers(l: GuardLayer, before: seq<StageLayer>, ghost limits: Option<RateLimitStage>)
    returns (layers: seq<StageLayer>)
    ensures layers == before + LayersFor([RouteReferrer, ReferrerArm, RouteValidators, Validators], l, limits)
  {
    hide LayersFor;
    layers := before;
    ghost var done: seq<Arm> := [];
    LayerlessArms(done, l, limits);
    Grow(done, RouteReferrer, l, limits);
    done := done + [RouteReferrer];
    if l.referrer.Some? {
      layers := layers + [ReferrerLayer(l.referrer.value)];
    }
    Grow(done, ReferrerArm, l, limits);
    done := done + [ReferrerArm];
    assert layers == before + LayersFor(done, l, limits);
    Grow(done, RouteValidators, l, limits);
    done := done + [RouteValidators];
    if l.customChecks.Some? {
      layers := layers + [ValidatorsLayer(l.customChecks.value)];
    }
    Grow(done, Validators, l, limits);
    done := done + [Validators];
    assert done == [RouteReferrer, ReferrerArm, RouteValidators, Validators];
  }

  /** The time window. */
  method WindowLayers(l: GuardLayer, before: seq<StageLayer>, ghost limits: Option<RateLimitStage>)
    returns (layers: seq<StageLayer>)
    ensures layers == before + LayersFor([RouteWindow, WindowArm, ScanArm], l, limits)
  {
    hide LayersFor;
    layers := before;
    ghost var done: seq<Arm> := [];
    LayerlessArms(done, l, limits);
    Grow(done, RouteWindow, l, limits);
    done := done + [RouteWindow];
    if l.timeWindow.Some? {
      layers := layers + [TimeWindowLayer(l.timeWindow.value)];
    }
    Grow(done, WindowArm, l, limits);
    done := done + [WindowArm];
    assert layers == before + LayersFor(done, l, limits);
    Grow(done, ScanArm, l, limits);
    done := done + [ScanArm];
    assert done == [RouteWindow, WindowArm, ScanArm];
  }

  /** The route gates. */
  method RouteLayers(l: GuardLayer, before: seq<StageLayer>, ghost limits: Option<RateLimitStage>)
    returns (layers: seq<StageLayer>)
    ensures layers == before + LayersFor([RouteReferrer, ReferrerArm, RouteValidators, Validators, RouteWindow, WindowArm, ScanArm], l, limits)
  {
    hide LayersFor;
    ghost var gates, window := [RouteReferrer, ReferrerArm, RouteValidators, Validators], [RouteWindow, WindowArm, ScanArm];
    layers := GateLayers(l, before, limits);
    layers := WindowLayers(l, layers, limits);
    LayersForAppend(gates, window, l, limits);
    assert gates + window == [RouteReferrer, ReferrerArm, RouteValidators, Validators, RouteWindow, WindowArm, ScanArm];
  }

  /** The geo and cloud stages. */
  method OriginLayers(l: GuardLayer, before: seq<StageLayer>, ghost limits: Option<RateLimitStage>)
    returns (layers: seq<StageLayer>)
    ensures layers == before + LayersFor([GeoArm, CloudArm], l, limits)
  {
    hide LayersFor;
    layers := before;
    ghost var done: seq<Arm> := [];
    LayerlessArms(done, l, limits);
    if l.geoBlocking.Some? {
      layers := layers + [GeoLayer(l.geoBlocking.value)];
    }
    Grow(done, GeoArm, l, limits);
    done := done + [GeoArm];
    assert layers == before + LayersFor(done, l, limits);
    if l.cloud.Some? {
      layers := layers + [CloudLayer(l.cloud.value)];
    }
    Grow(done, CloudArm, l, limits);
    done := done + [CloudArm];
    assert done == [GeoArm, CloudArm];
  }

  /** The user-agent stage. */
  method AgentLayers(l: GuardLayer, before: seq<StageLayer>, ghost limits: Option<RateLimitStage>)
    returns (layers: seq<StageLayer>)
    ensures layers == before + LayersFor([RouteAgents, AgentArm, CarrierTiers], l, limits)
  {
    hide LayersFor;
    layers := before;
    ghost var done: seq<Arm> := [];
    LayerlessArms(done, l, limits);
    Grow(done, RouteAgents, l, limits);
    done := done + [RouteAgents];
    if l.userAgent.Some? {
      layers := layers + [UserAgentLayer(l.userAgent.value)];
    }
    Grow(done, AgentArm, l, limits);
    done := done + [AgentArm];
    assert layers == before + LayersFor(done, l, limits);
    Grow(done, CarrierTiers, l, limits);
    done := done + [CarrierTiers];
    assert done == [RouteAgents, AgentArm, CarrierTiers];
  }

  /** The geo, cloud and user-agent stages, which sit between the bans and the tiers. */
  method MiddleLayers(l: GuardLayer, before: seq<StageLayer>, ghost limits: Option<RateLimitStage>)
    returns (layers: seq<StageLayer>)
    ensures layers == before + LayersFor([GeoArm, CloudArm, RouteAgents, AgentArm, CarrierTiers], l, limits)
  {
    hide LayersFor;
    layers := OriginLayers(l, before, limits);
    layers := AgentLayers(l, layers, limits);
    LayersForAppend([GeoArm, CloudArm], [RouteAgents, AgentArm, CarrierTiers], l, limits);
    assert [GeoArm, CloudArm] + [RouteAgents, AgentArm, CarrierTiers]
        == [GeoArm, CloudArm, RouteAgents, AgentArm, CarrierTiers];
  }

  /** The custom request check. */
  method LastLayers(l: GuardLayer, before: seq<StageLayer>, ghost limits: Option<RateLimitStage>)
    returns (layers: seq<StageLayer>)
    ensures layers == before + LayersFor([ThreatBlock, CustomRequestArm, ForwardArm], l, limits)
  {
    hide LayersFor;
    layers := before;
    ghost var done: seq<Arm> := [];
    LayerlessArms(done, l, limits);
    Grow(done, ThreatBlock, l, limits);
    done := done + [ThreatBlock];
    if l.customChecks.Some? {
      layers := layers + [CustomRequestLayer(l.customChecks.value)];
    }
    Grow(done, CustomRequestArm, l, limits);
    done := done + [CustomRequestArm];
    assert layers == before + LayersFor(done, l, limits);
    Grow(done, ForwardArm, l, limits);
    done := done + [ForwardArm];
    assert done == [ThreatBlock, CustomRequestArm, ForwardArm];
  }

  /** The order, cut where the list is built. */
  lemma OrderInPieces(l: GuardLayer, limits: Option<RateLimitStage>)
    ensures var early := [EmergencyMode, HttpsArm, BufferArm, RouteHeaders, HeadersArm];
      var late := [RouteReferrer, ReferrerArm, RouteValidators, Validators, RouteWindow, WindowArm, ScanArm];
      var middle := [GeoArm, CloudArm, RouteAgents, AgentArm, CarrierTiers];
      var last := [ThreatBlock, CustomRequestArm, ForwardArm];
      LayersFor(ORDER, l, limits) ==
        LayersFor(early, l, limits)
        + (LayersFor(late, l, limits)
           + (LayerFor(BanArm, l, limits)
              + (LayersFor(middle, l, limits) + (LayerFor(TierArm, l, limits) + LayersFor(last, l, limits)))))
  {
    hide LayersFor;
    var early := [EmergencyMode, HttpsArm, BufferArm, RouteHeaders, HeadersArm];
    var late := [RouteReferrer, ReferrerArm, RouteValidators, Validators, RouteWindow, WindowArm, ScanArm];
    var middle := [GeoArm, CloudArm, RouteAgents, AgentArm, CarrierTiers];
    var last := [ThreatBlock, CustomRequestArm, ForwardArm];
    var r1 := [TierArm] + last;
    var r2 := middle + r1;
    var r3 := [BanArm] + r2;
    var r4 := late + r3;
    assert ORDER == ADMISSION + (early + r4);
    LayersForAppend(ADMISSION, early + r4, l, limits);
    LayerlessArms(ADMISSION, l, limits);
    LayersForAppend(early, r4, l, limits);
    LayersForAppend(late, r3, l, limits);
    LayersForFirst(BanArm, r2, l, limits);
    LayersForAppend(middle, r1, l, limits);
    LayersForFirst(TierArm, last, l, limits);
  }

  /**
   `provided_layers`: exactly the installed stages, in pipeline order, the bans
   and the tiers around the middle ones when there is a rate-limit stage.
   */
  method ProvidedLayers(l: GuardLayer) returns (layers: seq<StageLayer>, limits: Option<RateLimitStage>)
    ensures layers == LayersFor(ORDER, l, limits)
    ensures l.stage.Some? ==> limits == l.stage
    ensures l.stage.None? ==> (limits.Some? <==> l.rateLimiter.Some? || l.banState.Some?)
    ensures l.stage.None? && limits.Some? ==> BuiltFrom(limits.value, l) && EmptyWhereMissing(limits.value, l)
    ensures l.stage.None? && limits.Some? && l.rateLimiter.None? ==> fresh(limits.value.limiter)
    ensures l.stage.None? && limits.Some? && l.banState.None? ==>
      fresh(limits.value.manager) && fresh(limits.value.counters)
  {
    hide LayersFor;
    limits := RateLimitStageOf(l);
    layers := EarlyLayers(l, [], limits);
    layers := RouteLayers(l, layers, limits);
    match limits {
      case Some(stage) =>
        layers := layers + [BansLayer(stage)];
        layers := MiddleLayers(l, layers, limits);
        layers := layers + [RateLimitLayer(stage)];
      case None =>
        layers := MiddleLayers(l, layers, limits);
    }
    layers := LastLayers(l, layers, limits);
    OrderInPieces(l, limits);
  }

  // ---- the hypotheses --------------------------------------------------------------------------

  /** A stage built with neither limiter nor ban store stays silent. */
  ghost predicate SilentStage(e: Engine, k: StageKnobs)
  {
    && (forall t: BanTable, now: nat, who: Option<Ip> :: e.decideBans(k, t, now, who) == (t, None))
    && (forall s: TierStores, now: nat, q: TierInput :: e.decideTiers(k, s, now, q) == (s, None))
  }

  /** The stage of the wrapped layer and the stage of the standalone layers are built alike. */
  ghost predicate StagesMatch(e: Engine, wrapped: RateLimitStage, limits: Option<RateLimitStage>)
  {
    if limits.Some? then limits.value.knobs == wrapped.knobs else SilentStage(e, wrapped.knobs)
  }

  /** What only the fused service has is off, and the scan is clean. */
  ghost predicate Comparable(env: Env, limits: Option<RateLimitStage>, parts: Parts)
  {
    && env.layer.stage.Some? && StagesMatch(env.engine, env.layer.stage.value, limits)
    && env.layer.routeConfigs.None? && parts.extensions.route.None? && parts.extensions.tiers.None?
    && env.layer.ipGate.None? && env.layer.processor.None? && parts.uri.path !in env.layer.excludePaths
    && EmptyBody(env.frames)
    && (!env.engine.detectionEnabled(env.layer.detection, None) || ScanOf(env, parts).NoThreat?)
  }

  // ---- what the two services render ------------------------------------------------------------

  /** The two answers show the client the same status, body, retry delay and redirect target. */
  predicate Shows(r: Response, q: Response)
  {
    && r.status == q.status && BodyText(r) == BodyText(q) && RetryAfter(r) == RetryAfter(q)
    && ("location" in r.headers <==> "location" in q.headers)
    && ("location" in r.headers ==> r.headers["location"] == q.headers["location"])
  }

  /** The two runs look the same from outside. */
  predicate LookAlike(x: Exit, y: Exit)
  {
    if x.Blocked? then y.Blocked? && Shows(x.response, y.response) else x == y
  }

  function FusedBlock(status: U16, body: string): Exit
  {
    if ValidStatus(status) then Blocked(PlainText(status, body)) else Panicked
  }

  /** How the fused service answers where this layer decides: the rate-limit stage in full, the others by status and body. */
  function FusedRender(l: StageLayer, v: Verdict): Exit
  {
    match v
    case EmergencyVerdict(a) => FusedBlock(a.status, a.body)
    case RedirectVerdict(r) => if ValidStatus(r.status) then Blocked(RedirectAnswer(r)) else Panicked
    case HeadersVerdict(a) => FusedBlock(a.status, a.body)
    case GateAnswered(a) => FusedBlock(a.status, a.body)
    case ValidatorVerdict(a) => FusedBlock(CustomStatus(a), "")
    case CustomVerdict(a) => FusedBlock(CustomStatus(a), "")
    case StageVerdict(a) =>
      if l.BansLayer? || l.RateLimitLayer? then Blocked(StageAnswer(a)) else FusedBlock(a.status, a.body)
  }

  /** The verdicts both services can render: the status exists, and nothing is carried that the fused service drops. */
  predicate Renderable(l: StageLayer, v: Verdict)
  {
    match v
    case EmergencyVerdict(a) => ValidStatus(a.status)
    case RedirectVerdict(_) => true
    case HeadersVerdict(_) => true
    case GateAnswered(a) => ValidStatus(a.status)
    case ValidatorVerdict(a) => ValidStatus(CustomStatus(a))
    case CustomVerdict(a) => ValidStatus(CustomStatus(a))
    case StageVerdict(a) =>
      l.BansLayer? || l.RateLimitLayer?
      || (a.retryAfter.None? && (a.customBody.None? || a.customBody.value == a.body))
  }

  /** The renderings look alike exactly for the verdicts both can render. */
  lemma RenderingsAgree(l: StageLayer, v: Verdict)
    ensures LookAlike(FusedRender(l, v), Stages.Render(v)) <==> Renderable(l, v)
  {
  }

  /** A throttled country: the standalone layer tells the client when to come back, the fused service does not. */
  lemma ThrottledOriginDiffers(stage: GeoStage)
    ensures var v := StageVerdict(StageResponse(429, "Too many requests", None, Some(60)));
      !LookAlike(FusedRender(GeoLayer(stage), v), Stages.Render(v))
  {
    RenderingsAgree(GeoLayer(stage), StageVerdict(StageResponse(429, "Too many requests", None, Some(60))));
  }

  /** A validator that names status 1000: the fused service panics, the standalone layer answers 403. */
  lemma MissingStatusDiffers(stage: CustomChecksStage)
    ensures var l, v := ValidatorsLayer(stage), ValidatorVerdict(CustomAnswer(Some(1000)));
      && FusedRender(l, v) == Panicked
      && Stages.Render(v).Blocked? && Stages.Render(v).response.status == 403
  {
  }

  // ---- arm by arm --------------------------------------------------------------------------------

  /** The fused run carries nothing but the request. */
  ghost predicate Neutral(parts: Parts, f: Flow)
  {
    && f.parts == parts && f.facts == Extract(parts) && f.route.None? && f.buffered.None? && f.verdict.None?
    && f.tiers.None? && !f.skipIpLists && !f.skipCountries
  }

  /** The ban manager of the standalone layers; without limits of their own they have none. */
  function StandaloneManager(env: Env, limits: Option<RateLimitStage>): IpBanManager
    requires env.layer.stage.Some?
  {
    if limits.Some? then limits.value.manager else env.layer.stage.value.manager
  }

  /** The stores of the fused service and of the stack hold the same, each in its own objects. */
  ghost predicate Paired(env: Env, limits: Option<RateLimitStage>, v: World, w: World)
    requires env.layer.stage.Some?
  {
    && w.windows == v.windows && w.counts == v.counts && w.tracker == v.tracker
    && w.stages == v.stages && w.received == v.received
    && BansOf(w, StandaloneManager(env, limits)) == BansOf(v, env.layer.stage.value.manager)
  }

  ghost predicate Passed(env: Env, limits: Option<RateLimitStage>, parts: Parts, o: Outcome, w: World)
    requires env.layer.stage.Some?
  {
    o.Continue? && Neutral(parts, o.flow) && Paired(env, limits, o.flow.world, w)
  }

  /** The fused arm answers what its service renders of the layer's verdict. */
  ghost predicate Answered(env: Env, limits: Option<RateLimitStage>, o: Outcome, l: StageLayer, v: Verdict, w: World)
    requires env.layer.stage.Some?
  {
    o.Done? && o.exit == FusedRender(l, v) && Paired(env, limits, o.world, w)
  }

  function StackOf(env: Env): StackEnv { StackEnv(env.engine, env.inner, env.now) }

  /** An arm does what its layer does; an arm without a layer passes. */
  ghost predicate ArmAgrees(layer: seq<StageLayer>, env: Env, limits: Option<RateLimitStage>, parts: Parts, o: Outcome, w: World)
    requires env.layer.stage.Some?
  {
    if layer == [] then Passed(env, limits, parts, o, w)
    else
      var (w1, v) := Decide(layer[0], StackOf(env), Extract(parts), HeaderPairs(parts.headers), w);
      if v.None? then Passed(env, limits, parts, o, w1) else Answered(env, limits, o, layer[0], v.value, w1)
  }

  lemma FinishWithoutProcessor(env: Env, f: Flow, response: Response)
    requires env.layer.processor.None?
    ensures var o := Finish(env, f, response); o.Done? && o.exit == Blocked(response) && o.world == f.world
  {
  }

  lemma BlockWithoutProcessor(env: Env, f: Flow, status: U16, body: string)
    requires env.layer.processor.None?
    ensures var o := Block(env, f, status, body);
      o.Done? && o.exit == FusedBlock(status, body) && o.world == f.world
  {
    hide Finish;
    FinishWithoutProcessor(env, f, PlainText(status, body));
  }

  lemma ExcludedPathAgrees(env: Env, limits: Option<RateLimitStage>, parts: Parts, f: Flow, w: World)
    requires Comparable(env, limits, parts) && Neutral(parts, f) && Paired(env, limits, f.world, w)
    ensures ArmAgrees([], env, limits, parts, StepExcludedPath(env, f), w)
  {
    hide Finish, Block, Pass, SilentStage;
  }

  lemma PreflightAgrees(env: Env, limits: Option<RateLimitStage>, parts: Parts, f: Flow, w: World)
    requires Comparable(env, limits, parts) && Neutral(parts, f) && Paired(env, limits, f.world, w)
    ensures ArmAgrees([], env, limits, parts, StepPreflight(env, f), w)
  {
    hide Finish, Block, Pass, SilentStage;
  }

  lemma ResolveRouteAgrees(env: Env, limits: Option<RateLimitStage>, parts: Parts, f: Flow, w: World)
    requires Comparable(env, limits, parts) && Neutral(parts, f) && Paired(env, limits, f.world, w)
    ensures ArmAgrees([], env, limits, parts, StepResolveRoute(env, f), w)
  {
    hide Finish, Block, Pass, SilentStage;
  }

  lemma UsageRulesAgrees(env: Env, limits: Option<RateLimitStage>, parts: Parts, f: Flow, w: World)
    requires Comparable(env, limits, parts) && Neutral(parts, f) && Paired(env, limits, f.world, w)
    ensures ArmAgrees([], env, limits, parts, StepUsageRules(env, f), w)
  {
    hide Finish, Block, Pass, SilentStage;
  }

  lemma RouteIpsAgrees(env: Env, limits: Option<RateLimitStage>, parts: Parts, f: Flow, w: World)
    requires Comparable(env, limits, parts) && Neutral(parts, f) && Paired(env, limits, f.world, w)
    ensures ArmAgrees([], env, limits, parts, StepRouteIps(env, f), w)
  {
    hide Finish, Block, Pass, SilentStage;
  }

  lemma RouteCountriesAgrees(env: Env, limits: Option<RateLimitStage>, parts: Parts, f: Flow, w: World)
    requires Comparable(env, limits, parts) && Neutral(parts, f) && Paired(env, limits, f.world, w)
    ensures ArmAgrees([], env, limits, parts, StepRouteCountries(env, f), w)
  {
    hide Finish, Block, Pass, SilentStage;
  }

  lemma GlobalGateAgrees(env: Env, limits: Option<RateLimitStage>, parts: Parts, f: Flow, w: World)
    requires Comparable(env, limits, parts) && Neutral(parts, f) && Paired(env, limits, f.world, w)
    ensures ArmAgrees([], env, limits, parts, StepGlobalGate(env, f), w)
  {
    hide Finish, Block, Pass, SilentStage;
  }

  lemma BufferAgrees(env: Env, limits: Option<RateLimitStage>, parts: Parts, f: Flow, w: World)
    requires Comparable(env, limits, parts) && Neutral(parts, f) && Paired(env, limits, f.world, w)
    ensures ArmAgrees([], env, limits, parts, StepBuffer(env, f), w)
  {
    hide Finish, Block, Pass, SilentStage, Buffer, Content;
    BufferWithoutErrors(env.frames, EffectiveCap(env.layer, f.route));
  }

  lemma RouteHeadersAgrees(env: Env, limits: Option<RateLimitStage>, parts: Parts, f: Flow, w: World)
    requires Comparable(env, limits, parts) && Neutral(parts, f) && Paired(env, limits, f.world, w)
    ensures ArmAgrees([], env, limits, parts, StepRouteHeaders(env, f), w)
  {
    hide Finish, Block, Pass, SilentStage;
  }

  lemma RouteReferrerAgrees(env: Env, limits: Option<RateLimitStage>, parts: Parts, f: Flow, w: World)
    requires Comparable(env, limits, parts) && Neutral(parts, f) && Paired(env, limits, f.world, w)
    ensures ArmAgrees([], env, limits, parts, StepRouteReferrer(env, f), w)
  {
    hide Finish, Block, Pass, SilentStage;
  }

  lemma RouteValidatorsAgrees(env: Env, limits: Option<RateLimitStage>, parts: Parts, f: Flow, w: World)
    requires Comparable(env, limits, parts) && Neutral(parts, f) && Paired(env, limits, f.world, w)
    ensures ArmAgrees([], env, limits, parts, StepRouteValidators(env, f), w)
  {
    hide Finish, Block, Pass, SilentStage;
  }

  lemma RouteWindowAgrees(env: Env, limits: Option<RateLimitStage>, parts: Parts, f: Flow, w: World)
    requires Comparable(env, limits, parts) && Neutral(parts, f) && Paired(env, limits, f.world, w)
    ensures ArmAgrees([], env, limits, parts, StepRouteWindow(env, f), w)
  {
    hide Finish, Block, Pass, SilentStage;
  }

  lemma ScanAgrees(env: Env, limits: Option<RateLimitStage>, parts: Parts, f: Flow, w: World)
    requires Comparable(env, limits, parts) && Neutral(parts, f) && Paired(env, limits, f.world, w)
    ensures ArmAgrees([], env, limits, parts, StepScan(env, f), w)
  {
    hide Finish, Block, Pass, SilentStage;
    hide ScanSurfaces;
  }

  lemma RouteAgentsAgrees(env: Env, limits: Option<RateLimitStage>, parts: Parts, f: Flow, w: World)
    requires Comparable(env, limits, parts) && Neutral(parts, f) && Paired(env, limits, f.world, w)
    ensures ArmAgrees([], env, limits, parts, StepRouteAgents(env, f), w)
  {
    hide Finish, Block, Pass, SilentStage;
  }

  lemma CarrierTiersAgrees(env: Env, limits: Option<RateLimitStage>, parts: Parts, f: Flow, w: World)
    requires Comparable(env, limits, parts) && Neutral(parts, f) && Paired(env, limits, f.world, w)
    ensures ArmAgrees([], env, limits, parts, StepCarrierTiers(env, f), w)
  {
    hide Finish, Block, Pass, SilentStage;
  }

  lemma ThreatAgrees(env: Env, limits: Option<RateLimitStage>, parts: Parts, f: Flow, w: World)
    requires Comparable(env, limits, parts) && Neutral(parts, f) && Paired(env, limits, f.world, w)
    ensures ArmAgrees([], env, limits, parts, StepThreat(env, f), w)
  {
    hide Finish, Block, Pass, SilentStage;
  }

  /** The layer behind an arm, written out. */
  lemma LayerIs(arm: Arm, l: GuardLayer, limits: Option<RateLimitStage>)
    ensures match arm
            case EmergencyMode => LayerFor(arm, l, limits) == if l.emergency.Some? then [EmergencyLayer(l.emergency.value)] else []
            case HttpsArm => LayerFor(arm, l, limits) == if l.https.Some? then [HttpsLayer(l.https.value)] else []
            case HeadersArm => LayerFor(arm, l, limits) == if l.headersAuth.Some? then [HeadersAuthLayer(l.headersAuth.value)] else []
            case ReferrerArm => LayerFor(arm, l, limits) == if l.referrer.Some? then [ReferrerLayer(l.referrer.value)] else []
            case Validators => LayerFor(arm, l, limits) == if l.customChecks.Some? then [ValidatorsLayer(l.customChecks.value)] else []
            case WindowArm => LayerFor(arm, l, limits) == if l.timeWindow.Some? then [TimeWindowLayer(l.timeWindow.value)] else []
            case BanArm => LayerFor(arm, l, limits) == if limits.Some? then [BansLayer(limits.value)] else []
            case GeoArm => LayerFor(arm, l, limits) == if l.geoBlocking.Some? then [GeoLayer(l.geoBlocking.value)] else []
            case CloudArm => LayerFor(arm, l, limits) == if l.cloud.Some? then [CloudLayer(l.cloud.value)] else []
            case AgentArm => LayerFor(arm, l, limits) == if l.userAgent.Some? then [UserAgentLayer(l.userAgent.value)] else []
            case TierArm => LayerFor(arm, l, limits) == if limits.Some? then [RateLimitLayer(limits.value)] else []
            case CustomRequestArm => LayerFor(arm, l, limits) == if l.customChecks.Some? then [CustomRequestLayer(l.customChecks.value)] else []
            case _ => LayerFor(arm, l, limits) == []
  {
  }

  lemma EmergencyAgrees(env: Env, limits: Option<RateLimitStage>, parts: Parts, f: Flow, w: World)
    requires Comparable(env, limits, parts) && Neutral(parts, f) && Paired(env, limits, f.world, w)
    ensures ArmAgrees(LayerFor(EmergencyMode, env.layer, limits), env, limits, parts, StepEmergency(env, f), w)
  {
    hide LayerFor, Finish, Block, Pass, SilentStage;
    LayerIs(EmergencyMode, env.layer, limits);
    if env.layer.emergency.Some? {
      var (s, answer) := env.layer.emergency.value.decide(f.world.stages.emergency, f.facts);
      var g := f.(world := f.world.(stages := f.world.stages.(emergency := s)));
      if answer.Some? { BlockWithoutProcessor(env, g, answer.value.status, answer.value.body); }
    }
  }

  lemma HttpsAgrees(env: Env, limits: Option<RateLimitStage>, parts: Parts, f: Flow, w: World)
    requires Comparable(env, limits, parts) && Neutral(parts, f) && Paired(env, limits, f.world, w)
    ensures ArmAgrees(LayerFor(HttpsArm, env.layer, limits), env, limits, parts, StepHttps(env, f), w)
  {
    hide LayerFor, HttpsQuestion, Finish, Block, Pass, SilentStage;
    LayerIs(HttpsArm, env.layer, limits);
    if env.layer.https.Some? {
      var (s, answer) := env.layer.https.value.decide(f.world.stages.https, HttpsQuestion(f.facts, f.route));
      var g := f.(world := f.world.(stages := f.world.stages.(https := s)));
      if answer.Some? { FinishWithoutProcessor(env, g, RedirectAnswer(answer.value)); }
    }
  }

  lemma HeadersAgrees(env: Env, limits: Option<RateLimitStage>, parts: Parts, f: Flow, w: World)
    requires Comparable(env, limits, parts) && Neutral(parts, f) && Paired(env, limits, f.world, w)
    ensures ArmAgrees(LayerFor(HeadersArm, env.layer, limits), env, limits, parts, StepHeaders(env, f), w)
  {
    hide LayerFor, Finish, Block, Pass, SilentStage;
    LayerIs(HeadersArm, env.layer, limits);
    if env.layer.headersAuth.Some? {
      var (s, answer) := env.layer.headersAuth.value.decide(
        f.world.stages.headersAuth, f.facts.path, HeaderPairs(f.parts.headers));
      var g := f.(world := f.world.(stages := f.world.stages.(headersAuth := s)));
      if answer.Some? { BlockWithoutProcessor(env, g, answer.value.status, answer.value.body); }
    }
  }

  lemma ReferrerAgrees(env: Env, limits: Option<RateLimitStage>, parts: Parts, f: Flow, w: World)
    requires Comparable(env, limits, parts) && Neutral(parts, f) && Paired(env, limits, f.world, w)
    ensures ArmAgrees(LayerFor(ReferrerArm, env.layer, limits), env, limits, parts, StepReferrer(env, f), w)
  {
    hide LayerFor, Finish, Block, Pass, SilentStage;
    LayerIs(ReferrerArm, env.layer, limits);
    if env.layer.referrer.Some? {
      var (s, answer) := env.layer.referrer.value.decide(f.world.stages.referrer, f.facts);
      var g := f.(world := f.world.(stages := f.world.stages.(referrer := s)));
      if answer.Some? { BlockWithoutProcessor(env, g, answer.value.status, answer.value.body); }
    }
  }

  lemma ValidatorsAgrees(env: Env, limits: Option<RateLimitStage>, parts: Parts, f: Flow, w: World)
    requires Comparable(env, limits, parts) && Neutral(parts, f) && Paired(env, limits, f.world, w)
    ensures ArmAgrees(LayerFor(Validators, env.layer, limits), env, limits, parts, StepValidators(env, f), w)
  {
    hide LayerFor, Finish, Block, Pass, SilentStage;
    LayerIs(Validators, env.layer, limits);
    if env.layer.customChecks.Some? {
      var (s, answer) := env.layer.customChecks.value.validators(
        f.world.stages.customChecks, f.facts, Utf8View(env.engine, f.buffered));
      var g := f.(world := f.world.(stages := f.world.stages.(customChecks := s)));
      if answer.Some? { BlockWithoutProcessor(env, g, CustomStatus(answer.value), ""); }
    }
  }

  lemma WindowAgrees(env: Env, limits: Option<RateLimitStage>, parts: Parts, f: Flow, w: World)
    requires Comparable(env, limits, parts) && Neutral(parts, f) && Paired(env, limits, f.world, w)
    ensures ArmAgrees(LayerFor(WindowArm, env.layer, limits), env, limits, parts, StepWindow(env, f), w)
  {
    hide LayerFor, Finish, Block, Pass, SilentStage;
    LayerIs(WindowArm, env.layer, limits);
    if env.layer.timeWindow.Some? {
      var (s, answer) := env.layer.timeWindow.value.decide(f.world.stages.timeWindow, f.facts);
      var g := f.(world := f.world.(stages := f.world.stages.(timeWindow := s)));
      if answer.Some? { BlockWithoutProcessor(env, g, answer.value.status, answer.value.body); }
    }
  }

  lemma GeoAgrees(env: Env, limits: Option<RateLimitStage>, parts: Parts, f: Flow, w: World)
    requires Comparable(env, limits, parts) && Neutral(parts, f) && Paired(env, limits, f.world, w)
    ensures ArmAgrees(LayerFor(GeoArm, env.layer, limits), env, limits, parts, StepGeo(env, f), w)
  {
    hide LayerFor, Finish, Block, Pass, SilentStage;
    LayerIs(GeoArm, env.layer, limits);
    if env.layer.geoBlocking.Some? {
      var (s, answer) := env.layer.geoBlocking.value.decide(f.world.stages.geo, f.facts.ip, f.facts.gate);
      var g := f.(world := f.world.(stages := f.world.stages.(geo := s)));
      if answer.Some? { BlockWithoutProcessor(env, g, answer.value.status, answer.value.body); }
    }
  }

  lemma CloudAgrees(env: Env, limits: Option<RateLimitStage>, parts: Parts, f: Flow, w: World)
    requires Comparable(env, limits, parts) && Neutral(parts, f) && Paired(env, limits, f.world, w)
    ensures ArmAgrees(LayerFor(CloudArm, env.layer, limits), env, limits, parts, StepCloud(env, f), w)
  {
    hide LayerFor, Finish, Block, Pass, SilentStage;
    LayerIs(CloudArm, env.layer, limits);
    if env.layer.cloud.Some? {
      var (s, answer) := env.layer.cloud.value.decide(f.world.stages.cloud, f.facts.ip, f.facts.gate, None);
      var g := f.(world := f.world.(stages := f.world.stages.(cloud := s)));
      if answer.Some? { BlockWithoutProcessor(env, g, answer.value.status, answer.value.body); }
    }
  }

  lemma AgentAgrees(env: Env, limits: Option<RateLimitStage>, parts: Parts, f: Flow, w: World)
    requires Comparable(env, limits, parts) && Neutral(parts, f) && Paired(env, limits, f.world, w)
    ensures ArmAgrees(LayerFor(AgentArm, env.layer, limits), env, limits, parts, StepAgent(env, f), w)
  {
    hide LayerFor, Finish, Block, Pass, SilentStage;
    LayerIs(AgentArm, env.layer, limits);
    if env.layer.userAgent.Some? {
      var (s, answer) := env.layer.userAgent.value.decide(
        f.world.stages.userAgent,
        UserAgentInput(f.facts.ip, f.facts.gate, f.facts.path, f.facts.userAgent, f.verdict));
      var g := f.(world := f.world.(stages := f.world.stages.(userAgent := s)));
      if answer.Some? { BlockWithoutProcessor(env, g, answer.value.status, answer.value.body); }
    }
  }

  /** The decisions of a silent stage change nothing but the journal. */
  lemma SilentDecisions(env: Env, f: Flow, w: World)
    requires env.layer.stage.Some? && SilentStage(env.engine, env.layer.stage.value.knobs)
    requires Paired(env, None, f.world, w)
    ensures BanDecision(env, f, env.layer.stage.value).1.None?
    ensures Paired(env, None, BanDecision(env, f, env.layer.stage.value).0, w)
    ensures TierDecision(env, f, env.layer.stage.value).1.None?
    ensures Paired(env, None, TierDecision(env, f, env.layer.stage.value).0, w)
  {
  }

  lemma SilentBansAgrees(env: Env, limits: Option<RateLimitStage>, parts: Parts, f: Flow, w: World)
    requires Comparable(env, limits, parts) && Neutral(parts, f) && Paired(env, limits, f.world, w)
    requires limits.None?
    ensures ArmAgrees([], env, limits, parts, StepBans(env, f), w)
  {
    hide BanDecision, TierDecision, Finish, SilentStage, ScanOf;
    SilentDecisions(env, f, w);
  }

  lemma SharedBansAgrees(env: Env, limits: Option<RateLimitStage>, parts: Parts, f: Flow, w: World)
    requires Comparable(env, limits, parts) && Neutral(parts, f) && Paired(env, limits, f.world, w)
    requires limits.Some?
    ensures ArmAgrees([BansLayer(limits.value)], env, limits, parts, StepBans(env, f), w)
  {
    hide StageAnswer, Finish, Block, Pass, SilentStage, ScanOf;
    var stage := env.layer.stage.value;
    var (v, answer) := BanDecision(env, f, stage);
    if answer.Some? {
      FinishWithoutProcessor(env, f.(world := v), StageAnswer(answer.value));
    }
  }

  lemma BansAgrees(env: Env, limits: Option<RateLimitStage>, parts: Parts, f: Flow, w: World)
    requires Comparable(env, limits, parts) && Neutral(parts, f) && Paired(env, limits, f.world, w)
    ensures ArmAgrees(LayerFor(BanArm, env.layer, limits), env, limits, parts, StepBans(env, f), w)
  {
    hide LayerFor, StepBans, ArmAgrees, Neutral, Paired, SilentStage, ScanOf;
    LayerIs(BanArm, env.layer, limits);
    if limits.None? {
      SilentBansAgrees(env, limits, parts, f, w);
    } else {
      SharedBansAgrees(env, limits, parts, f, w);
    }
  }

  lemma SilentTiersAgrees(env: Env, limits: Option<RateLimitStage>, parts: Parts, f: Flow, w: World)
    requires Comparable(env, limits, parts) && Neutral(parts, f) && Paired(env, limits, f.world, w)
    requires limits.None?
    ensures ArmAgrees([], env, limits, parts, StepTiers(env, f), w)
  {
    hide BanDecision, TierDecision, Finish, SilentStage, ScanOf;
    SilentDecisions(env, f, w);
  }

  lemma SharedTiersAgrees(env: Env, limits: Option<RateLimitStage>, parts: Parts, f: Flow, w: World)
    requires Comparable(env, limits, parts) && Neutral(parts, f) && Paired(env, limits, f.world, w)
    requires limits.Some?
    ensures ArmAgrees([RateLimitLayer(limits.value)], env, limits, parts, StepTiers(env, f), w)
  {
    hide StageAnswer, Finish, Block, Pass, SilentStage, ScanOf;
    var stage := env.layer.stage.value;
    var (v, answer) := TierDecision(env, f, stage);
    if answer.Some? {
      FinishWithoutProcessor(env, f.(world := v), StageAnswer(answer.value));
    }
  }

  lemma TiersAgrees(env: Env, limits: Option<RateLimitStage>, parts: Parts, f: Flow, w: World)
    requires Comparable(env, limits, parts) && Neutral(parts, f) && Paired(env, limits, f.world, w)
    ensures ArmAgrees(LayerFor(TierArm, env.layer, limits), env, limits, parts, StepTiers(env, f), w)
  {
    hide LayerFor, StepTiers, ArmAgrees, Neutral, Paired, SilentStage, ScanOf;
    LayerIs(TierArm, env.layer, limits);
    if limits.None? {
      SilentTiersAgrees(env, limits, parts, f, w);
    } else {
      SharedTiersAgrees(env, limits, parts, f, w);
    }
  }

  lemma CustomRequestAgrees(env: Env, limits: Option<RateLimitStage>, parts: Parts, f: Flow, w: World)
    requires Comparable(env, limits, parts) && Neutral(parts, f) && Paired(env, limits, f.world, w)
    ensures ArmAgrees(LayerFor(CustomRequestArm, env.layer, limits), env, limits, parts, StepCustomRequest(env, f), w)
  {
    hide LayerFor, Finish, Block, Pass, SilentStage;
    LayerIs(CustomRequestArm, env.layer, limits);
    if env.layer.customChecks.Some? {
      var (s, answer) := env.layer.customChecks.value.request(
        f.world.stages.customChecks, f.facts, Utf8View(env.engine, f.buffered));
      var g := f.(world := f.world.(stages := f.world.stages.(customChecks := s)));
      if answer.Some? { BlockWithoutProcessor(env, g, CustomStatus(answer.value), ""); }
    }
  }

  /** The arms that are layers of their own outside the fused service. */
  predicate IsLayer(arm: Arm)
  {
    arm in {EmergencyMode, HttpsArm, HeadersArm, ReferrerArm, Validators, WindowArm, GeoArm, CloudArm,
            AgentArm, BanArm, TierArm, CustomRequestArm}
  }

  /** The arms without a layer pass every request the theorem is about. */
  lemma BareArmAgrees(arm: Arm, env: Env, limits: Option<RateLimitStage>, parts: Parts, f: Flow, w: World)
    requires arm != ForwardArm && !IsLayer(arm)
    requires Comparable(env, limits, parts) && Neutral(parts, f) && Paired(env, limits, f.world, w)
    ensures ArmAgrees([], env, limits, parts, Step(arm, env, f), w)
  {
    hide StepExcludedPath, StepPreflight, StepResolveRoute, StepUsageRules, StepRouteIps, StepRouteCountries,
      StepGlobalGate, StepEmergency, StepHttps, StepBuffer, StepRouteHeaders, StepHeaders, StepRouteReferrer,
      StepReferrer, StepRouteValidators, StepValidators, StepRouteWindow, StepWindow, StepScan, StepBans, StepGeo,
      StepCloud, StepRouteAgents, StepAgent, StepCarrierTiers, StepTiers, StepThreat, StepCustomRequest, ForwardCall,
      ArmAgrees, Paired, Neutral, SilentStage, LayerFor;
    match arm {
      case ExcludedPath => ExcludedPathAgrees(env, limits, parts, f, w);
      case Preflight => PreflightAgrees(env, limits, parts, f, w);
      case ResolveRoute => ResolveRouteAgrees(env, limits, parts, f, w);
      case UsageRules => UsageRulesAgrees(env, limits, parts, f, w);
      case RouteIps => RouteIpsAgrees(env, limits, parts, f, w);
      case RouteCountries => RouteCountriesAgrees(env, limits, parts, f, w);
      case GlobalGate => GlobalGateAgrees(env, limits, parts, f, w);
      case BufferArm => BufferAgrees(env, limits, parts, f, w);
      case RouteHeaders => RouteHeadersAgrees(env, limits, parts, f, w);
      case RouteReferrer => RouteReferrerAgrees(env, limits, parts, f, w);
      case RouteValidators => RouteValidatorsAgrees(env, limits, parts, f, w);
      case RouteWindow => RouteWindowAgrees(env, limits, parts, f, w);
      case ScanArm => ScanAgrees(env, limits, parts, f, w);
      case RouteAgents => RouteAgentsAgrees(env, limits, parts, f, w);
      case CarrierTiers => CarrierTiersAgrees(env, limits, parts, f, w);
      case ThreatBlock => ThreatAgrees(env, limits, parts, f, w);
    }
  }

  lemma LayerArmAgrees(arm: Arm, env: Env, limits: Option<RateLimitStage>, parts: Parts, f: Flow, w: World)
    requires IsLayer(arm)
    requires Comparable(env, limits, parts) && Neutral(parts, f) && Paired(env, limits, f.world, w)
    ensures ArmAgrees(LayerFor(arm, env.layer, limits), env, limits, parts, Step(arm, env, f), w)
  {
    hide StepExcludedPath, StepPreflight, StepResolveRoute, StepUsageRules, StepRouteIps, StepRouteCountries,
      StepGlobalGate, StepEmergency, StepHttps, StepBuffer, StepRouteHeaders, StepHeaders, StepRouteReferrer,
      StepReferrer, StepRouteValidators, StepValidators, StepRouteWindow, StepWindow, StepScan, StepBans, StepGeo,
      StepCloud, StepRouteAgents, StepAgent, StepCarrierTiers, StepTiers, StepThreat, StepCustomRequest, ForwardCall,
      ArmAgrees, Paired, Neutral, SilentStage, LayerFor;
    match arm {
      case EmergencyMode => EmergencyAgrees(env, limits, parts, f, w);
      case HttpsArm => HttpsAgrees(env, limits, parts, f, w);
      case HeadersArm => HeadersAgrees(env, limits, parts, f, w);
      case ReferrerArm => ReferrerAgrees(env, limits, parts, f, w);
      case Validators => ValidatorsAgrees(env, limits, parts, f, w);
      case WindowArm => WindowAgrees(env, limits, parts, f, w);
      case GeoArm => GeoAgrees(env, limits, parts, f, w);
      case CloudArm => CloudAgrees(env, limits, parts, f, w);
      case AgentArm => AgentAgrees(env, limits, parts, f, w);
      case BanArm => BansAgrees(env, limits, parts, f, w);
      case TierArm => TiersAgrees(env, limits, parts, f, w);
      case CustomRequestArm => CustomRequestAgrees(env, limits, parts, f, w);
    }
  }

  lemma StepAgrees(arm: Arm, env: Env, limits: Option<RateLimitStage>, parts: Parts, f: Flow, w: World)
    requires arm != ForwardArm
    requires Comparable(env, limits, parts) && Neutral(parts, f) && Paired(env, limits, f.world, w)
    ensures ArmAgrees(LayerFor(arm, env.layer, limits), env, limits, parts, Step(arm, env, f), w)
  {
    hide Step, ArmAgrees, Paired, Neutral, SilentStage, LayerFor;
    if IsLayer(arm) {
      LayerArmAgrees(arm, env, limits, parts, f, w);
    } else {
      LayerIs(arm, env.layer, limits);
      BareArmAgrees(arm, env, limits, parts, f, w);
    }
  }

  // ---- the theorem -------------------------------------------------------------------------------

  /** The first layer of the list that decides, with its verdict. */
  function Deciding(layers: seq<StageLayer>, e: StackEnv, parts: Parts, w: World): Option<(StageLayer, Verdict)>
  {
    if layers == [] then None
    else
      var (w1, v) := Decide(layers[0], e, Extract(parts), HeaderPairs(parts.headers), w);
      if v.Some? then Some((layers[0], v.value)) else Deciding(layers[1..], e, parts, w1)
  }

  /**
   How the fused run and the stack end: with the same stores, and, when a layer
   decides, each with its own rendering of that verdict, otherwise with the same exit.
   */
  ghost predicate EndTogether(env: Env, limits: Option<RateLimitStage>, d: Option<(StageLayer, Verdict)>,
                              o: Outcome, exit: Exit, w: World)
    requires env.layer.stage.Some?
  {
    && o.Done? && Paired(env, limits, o.world, w)
    && (d.None? ==> !o.exit.Blocked? && o.exit == exit)
    && (d.Some? ==> o.exit == FusedRender(d.value.0, d.value.1) && exit == Stages.Render(d.value.1))
  }

  lemma InnermostAgrees(env: Env, limits: Option<RateLimitStage>, parts: Parts, f: Flow, w: World)
    requires Comparable(env, limits, parts) && Neutral(parts, f) && Paired(env, limits, f.world, w)
    ensures var (exit, w') := CallInnermost(StackOf(env), parts, [], w);
      EndTogether(env, limits, None, ForwardCall(env, f, Rebuilt(f.buffered)), exit, w')
  {
    hide SilentStage;
  }

  lemma LayerForIsShort(arm: Arm, l: GuardLayer, limits: Option<RateLimitStage>)
    ensures |LayerFor(arm, l, limits)| <= 1
  {
  }

  lemma {:induction false} RunAgrees(arms: seq<Arm>, env: Env, limits: Option<RateLimitStage>, parts: Parts, f: Flow, w: World)
    requires arms != [] && arms[|arms| - 1] == ForwardArm && ForwardArm !in arms[..|arms| - 1]
    requires Comparable(env, limits, parts) && Neutral(parts, f) && Paired(env, limits, f.world, w)
    ensures var layers := LayersFor(arms, env.layer, limits);
      var (exit, w') := CallService(Stack(layers), StackOf(env), parts, [], w);
      EndTogether(env, limits, Deciding(layers, StackOf(env), parts, w), Run(arms, env, f), exit, w')
  {
    hide Step, Decide, LayerFor, Neutral, Paired, CallInnermost, Stages.Render, FusedRender, StagesMatch, ScanOf, EmptyBody;
    if |arms| == 1 {
      assert arms == [ForwardArm];
      LastArm(env, f);
      InnermostAgrees(env, limits, parts, f, w);
      LayersOfLast(env.layer, limits);
    } else {
      var rest := arms[1..];
      assert arms[0] == arms[..|arms| - 1][0];
      assert rest[..|rest| - 1] == arms[..|arms| - 1][1..];
      StepAgrees(arms[0], env, limits, parts, f, w);
      LayerForIsShort(arms[0], env.layer, limits);
      var layer := LayerFor(arms[0], env.layer, limits);
      var tail := LayersFor(rest, env.layer, limits);
      if layer == [] {
        assert layer + tail == tail;
        RunAgrees(rest, env, limits, parts, Step(arms[0], env, f).flow, w);
      } else {
        assert (layer + tail)[0] == layer[0] && (layer + tail)[1..] == tail;
        var (w1, v) := Decide(layer[0], StackOf(env), Extract(parts), HeaderPairs(parts.headers), w);
        if v.None? {
          RunAgrees(rest, env, limits, parts, Step(arms[0], env, f).flow, w1);
        }
      }
    }
  }

  lemma LayersOfLast(l: GuardLayer, limits: Option<RateLimitStage>)
    ensures LayersFor([ForwardArm], l, limits) == []
  {
    LayerlessArms([ForwardArm], l, limits);
  }

  /** The fused call of this layer and the stack agree as far as the deciding verdict allows. */
  ghost predicate Agree(env: Env, limits: Option<RateLimitStage>, service: Stages.Service, parts: Parts, v: World, w: World)
    requires env.layer.stage.Some?
  {
    var d := Deciding(LayersFor(ORDER, env.layer, limits), StackOf(env), parts, w);
    var o := Call(env, parts, v);
    var (exit, w') := CallService(service, StackOf(env), parts, [], w);
    && EndTogether(env, limits, d, o, exit, w')
    && (LookAlike(o.exit, exit) <==> d.None? || Renderable(d.value.0, d.value.1))
  }

  /**
   The fused call and the standalone stack agree. With what only the fused service
   has switched off, folding the provided layers in reverse over the wrapped service
   leaves the same stores as the fused call and shows the client the same status,
   body, retry delay and redirect target, or the same reply of the wrapped service,
   if and only if no layer decides or the deciding verdict can be rendered by both.
   */
  lemma FusedAgreesWithStack(env: Env, limits: Option<RateLimitStage>, parts: Parts, v: World, w: World)
    requires Comparable(env, limits, parts) && Paired(env, limits, v, w)
    ensures Agree(env, limits, Stack(LayersFor(ORDER, env.layer, limits)), parts, v, w)
  {
    hide Step, Comparable, Run, LookAlike, Renderable, FusedRender, Stages.Render, Paired;
    var layers := LayersFor(ORDER, env.layer, limits);
    Positions();
    assert ORDER[..ALL] == BEFORE_FORWARD;
    RunAgrees(ORDER, env, limits, parts, Start(parts, v), w);
    var d := Deciding(layers, StackOf(env), parts, w);
    if d.Some? {
      RenderingsAgree(d.value.0, d.value.1);
    } else {
      SameExitLooksAlike(Call(env, parts, v).exit);
    }
  }

  lemma SameExitLooksAlike(x: Exit)
    requires !x.Blocked?
    ensures LookAlike(x, x)
  {
  }

  // ---- one layer on both sides -------------------------------------------------------------------

  /** The list does not depend on the stage a layer was given when it was wrapped. */
  lemma {:induction false} LayersIgnoreTheStage(arms: seq<Arm>, l: GuardLayer, wrapped: GuardLayer, limits: Option<RateLimitStage>)
    requires wrapped == l.(stage := wrapped.stage)
    ensures LayersFor(arms, l, limits) == LayersFor(arms, wrapped, limits)
  {
    hide LayerFor;
    if arms != [] {
      LayerIgnoresTheStage(arms[0], l, wrapped, limits);
      LayersIgnoreTheStage(arms[1..], l, wrapped, limits);
    }
  }

  lemma LayerIgnoresTheStage(arm: Arm, l: GuardLayer, wrapped: GuardLayer, limits: Option<RateLimitStage>)
    requires wrapped == l.(stage := wrapped.stage)
    ensures LayerFor(arm, l, limits) == LayerFor(arm, wrapped, limits)
  {
  }

  /** Without a stage, a limiter and a ban store the stage is built switched off. */
  predicate SwitchedOff(k: StageKnobs) { k.rateLimit == LIMITER_OFF && k.ipBan == BANNING_OFF }

  /** The stores of the two stages start out with the same contents, in shared or in new objects. */
  ghost predicate StoresStartAlike(a: RateLimitStage, b: RateLimitStage)
    reads a.limiter, b.limiter, a.manager, b.manager, a.counters, b.counters
  {
    && a.limiter.windows == b.limiter.windows && a.manager.table == b.manager.table
    && a.counters.counts == b.counters.counts
  }

  /**
   One layer, wrapped on the one side and folded as a list on the other. Each side
   builds its own stage: the two share exactly the stores that are installed, missing
   ones are new and empty on both sides, and the knobs are the same. So the two services agree on every
   request the theorem covers, whichever of limiter and ban store is installed.
   */
  method WrapBothWays(l: GuardLayer)
    returns (wrapped: GuardLayer, service: Stages.Service, limits: Option<RateLimitStage>)
    requires l.stage.None?
    ensures wrapped.stage.Some? && wrapped == l.(stage := wrapped.stage)
    ensures service == Stack(LayersFor(ORDER, wrapped, limits))
    ensures limits.Some? <==> l.rateLimiter.Some? || l.banState.Some?
    ensures limits.Some? ==>
      limits.value.knobs == wrapped.stage.value.knobs && StoresStartAlike(limits.value, wrapped.stage.value)
    ensures limits.Some? ==>
      (limits.value.limiter == wrapped.stage.value.limiter <==> l.rateLimiter.Some?)
    ensures limits.Some? ==>
      && (limits.value.manager == wrapped.stage.value.manager <==> l.banState.Some?)
      && (limits.value.counters == wrapped.stage.value.counters <==> l.banState.Some?)
    ensures limits.None? ==> SwitchedOff(wrapped.stage.value.knobs)
    ensures forall env: Env, parts: Parts, v: World, w: World ::
              env.layer == wrapped && Comparable(env, limits, parts) && Paired(env, limits, v, w) ==>
                Agree(env, limits, service, parts, v, w)
  {
    hide LayersFor, Agree, Comparable, Paired;
    wrapped := Layered(l);
    var layers;
    layers, limits := ProvidedLayers(l);
    service := FoldInReverse(layers);
    LayersIgnoreTheStage(ORDER, l, wrapped, limits);
    forall env: Env, parts: Parts, v: World, w: World
      | env.layer == wrapped && Comparable(env, limits, parts) && Paired(env, limits, v, w)
      ensures Agree(env, limits, service, parts, v, w)
    {
      FusedAgreesWithStack(env, limits, parts, v, w);
    }
  }
}
