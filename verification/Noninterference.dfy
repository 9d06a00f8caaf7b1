/**
 Statements about two runs. The two services may differ in the global address gate,
 in the custom error bodies, in a response modifier that panics, in the geo, cloud
 and user-agent stages, and in the engine's tier rule. Arm by arm such runs stay
 alike as long as no arm reads what differs, which gives two theorems here: a passing
 gate is invisible in front of the tiers, and a panic of the modifier is invisible in
 every answer.
 */
module Noninterference {
  import opened BanTables
  import opened BodyBuffer
  import opened Engine
  import opened Frames
  import opened Http
  import opened Layer
  import opened Octets
  import opened Pipeline
  import opened Runs
  import opened Wrappers

  /** A view of the response behind the modifier; a panic leaves it as it was. */
  function Shown(m: Option<ResponseModifier>, bits: ResponseBits): ResponseBits
  {
    if m.Some? && m.value.run(bits).Some? then m.value.run(bits).value else bits
  }

  ghost predicate AlwaysPanics(m: Option<ResponseModifier>)
  {
    m.Some? && forall bits: ResponseBits :: m.value.run(bits).None?
  }

  /** The second modifier shows what the first one does, and never panics. */
  ghost predicate Steadies(m: Option<ResponseModifier>, n: Option<ResponseModifier>)
  {
    && (n.Some? ==> forall bits: ResponseBits :: n.value.run(bits).Some?)
    && forall bits: ResponseBits :: Shown(n, bits) == Shown(m, bits)
  }

  /** Two environments, and how many response passes there had been at the start. */
  datatype Twins = Twins(a: Env, b: Env, start: nat)

  ghost predicate Unsteady(t: Twins) { t.b.layer.responseModifier != t.a.layer.responseModifier }

  ghost predicate Twinned(t: Twins)
  {
    && t.b == t.a.(
         layer := t.a.layer.(
           ipGate := t.b.layer.ipGate, customErrors := t.b.layer.customErrors,
           responseModifier := t.b.layer.responseModifier, geoBlocking := t.b.layer.geoBlocking,
           cloud := t.b.layer.cloud, userAgent := t.b.layer.userAgent),
         engine := t.a.engine.(decideTiers := t.b.engine.decideTiers))
    && (Unsteady(t) ==> Steadies(t.a.layer.responseModifier, t.b.layer.responseModifier))
  }

  /** This arm reads nothing in which the two environments differ. */
  ghost predicate SameFor(arm: Arm, t: Twins)
  {
    match arm
    case GlobalGate => t.b.layer.ipGate == t.a.layer.ipGate && t.b.layer.customErrors == t.a.layer.customErrors
    case GeoArm => t.b.layer.geoBlocking == t.a.layer.geoBlocking
    case CloudArm => t.b.layer.cloud == t.a.layer.cloud
    case AgentArm => t.b.layer.userAgent == t.a.layer.userAgent
    case TierArm => t.b.engine.decideTiers == t.a.engine.decideTiers
    case ThreatBlock => t.b.layer.customErrors == t.a.layer.customErrors
    case _ => true
  }

  /**
   How many more error reports the first service has sent after so many passes: at
   most one for each, none without a hook to hear them, and exactly one for each
   when the modifier does nothing but panic.
   */
  ghost predicate Heard(t: Twins, reports: int, passes: int)
  {
    var hears := Unsteady(t) && t.a.layer.processor.Some? && t.a.layer.onError.Some?;
    && 0 <= reports <= passes
    && (!hears ==> reports == 0)
    && (hears && AlwaysPanics(t.a.layer.responseModifier) ==> reports == passes)
  }

  /** The two worlds differ in the error reports of the passes since the start alone. */
  ghost predicate WorldsNear(t: Twins, v: World, w: World)
  {
    && w == v.(journal := v.journal.(errorHooks := w.journal.errorHooks))
    && Heard(t, v.journal.errorHooks - w.journal.errorHooks, v.journal.passes - t.start)
  }

  /** The two flows differ in the gate decision they carry and in the error reports alone. */
  ghost predicate FlowsAlike(t: Twins, f: Flow, g: Flow)
  {
    && g == f.(parts := WithGate(f.parts, g.parts.extensions.gate), world := g.world)
    && WorldsNear(t, f.world, g.world)
  }

  /** The same answer in near worlds, or two flows that go on alike. */
  ghost predicate Alike(t: Twins, o: Outcome, p: Outcome)
  {
    if o.Continue? then p.Continue? && FlowsAlike(t, o.flow, p.flow)
    else p.Done? && o.exit == p.exit && WorldsNear(t, o.world, p.world)
  }

  lemma ProcessedNear(t: Twins, p: ResponseProcessor, input: ProcessorInput, status: U16, v: World, w: World)
    requires Twinned(t) && WorldsNear(t, v, w)
    ensures var (v', bits) := Processed(t.a, p, input, status, v);
      var (w', view) := Processed(t.b, p, input, status, w);
      && bits == view && w' == v'.(journal := v'.journal.(errorHooks := w.journal.errorHooks))
      && v'.journal.passes == v.journal.passes + 1 && v'.journal.errorHooks == v.journal.errorHooks
  {
    hide Heard;
  }

  lemma {:induction false} InsertedAlike(t: Twins, headers: map<string, FieldValue>, pairs: seq<(string, string)>)
    requires Twinned(t)
    ensures InsertHeaders(t.b.engine, headers, pairs) == InsertHeaders(t.a.engine, headers, pairs)
    decreases |pairs|
  {
    if pairs != [] {
      var entry := t.a.engine.headerEntry(pairs[0].0, pairs[0].1);
      InsertedAlike(t, if entry.Some? then headers[entry.value.0 := Text(entry.value.1)] else headers, pairs[1..]);
    }
  }

  lemma ShownAlike(t: Twins, bits: ResponseBits)
    requires Twinned(t)
    ensures Shown(t.b.layer.responseModifier, bits) == Shown(t.a.layer.responseModifier, bits)
    ensures Unsteady(t) && t.b.layer.responseModifier.Some? ==> t.b.layer.responseModifier.value.run(bits).Some?
    ensures AlwaysPanics(t.a.layer.responseModifier) ==>
              t.a.layer.responseModifier.Some? && t.a.layer.responseModifier.value.run(bits).None?
  {
  }

  /** One view through both modifiers, in a pass that has been counted already. */
  lemma ModifiedNear(t: Twins, bits: ResponseBits, v: World, w: World)
    requires Twinned(t) && t.a.layer.processor.Some?
    requires w == v.(journal := v.journal.(errorHooks := w.journal.errorHooks))
    requires Heard(t, v.journal.errorHooks - w.journal.errorHooks, v.journal.passes - t.start - 1)
    ensures Modified(t.a.layer, bits, v).1 == Modified(t.b.layer, bits, w).1
    ensures WorldsNear(t, Modified(t.a.layer, bits, v).0, Modified(t.b.layer, bits, w).0)
  {
    hide Steadies, AlwaysPanics;
    ShownAlike(t, bits);
  }

  lemma PassAlike(t: Twins, input: ProcessorInput, lane: Lane, response: Response, v: World, w: World)
    requires Twinned(t) && WorldsNear(t, v, w)
    ensures Pass(t.a, input, lane, response, v).0 == Pass(t.b, input, lane, response, w).0
    ensures WorldsNear(t, Pass(t.a, input, lane, response, v).1, Pass(t.b, input, lane, response, w).1)
  {
    hide InsertHeaders, Processed, Modified, Steadies, Heard;
    if t.a.layer.processor.Some? {
      var p := t.a.layer.processor.value;
      ProcessedNear(t, p, input, response.status, v, w);
      var (v1, bits) := Processed(t.a, p, input, response.status, v);
      var w1 := Processed(t.b, p, input, response.status, w).0;
      var v2, w2 := HeaderEvent(t.a.layer, p, lane, v1), HeaderEvent(t.b.layer, p, lane, w1);
      ModifiedNear(t, bits, v2, w2);
      InsertedAlike(t, response.headers, Modified(t.a.layer, bits, v2).1.headers);
    }
  }

  lemma FinishAlike(t: Twins, f: Flow, g: Flow, response: Response)
    requires Twinned(t) && FlowsAlike(t, f, g)
    ensures Alike(t, Finish(t.a, f, response), Finish(t.b, g, response))
  {
    hide Pass, WorldsNear, Twinned;
    PassAlike(t, InputFromParts(f.parts), GeneratedLane, response, f.world, g.world);
  }

  lemma BlockAlike(t: Twins, f: Flow, g: Flow, status: U16, body: string)
    requires Twinned(t) && FlowsAlike(t, f, g)
    ensures Alike(t, Block(t.a, f, status, body), Block(t.b, g, status, body))
  {
    hide Finish, WorldsNear;
    if ValidStatus(status) { FinishAlike(t, f, g, PlainText(status, body)); }
  }

  lemma PreflightAlike(t: Twins, f: Flow, g: Flow)
    requires Twinned(t) && FlowsAlike(t, f, g)
    ensures Alike(t, StepPreflight(t.a, f), StepPreflight(t.b, g))
  {
    hide Finish, Block, Pass, Heard;
    hide InsertHeaders, PreflightPairs, FindPair, EqIgnoreCase;
    if t.a.layer.processor.Some? && t.a.layer.processor.value.knobs.cors.Some? {
      var pairs := PreflightPairs(f.parts.headers);
      var a := t.a.engine.buildPreflight(
        t.a.layer.processor.value.knobs.cors.value, FindPair(pairs, "origin"),
        FindPair(pairs, REQUEST_METHOD_HEADER), FindPair(pairs, REQUEST_HEADERS_HEADER));
      InsertedAlike(t, PlainText(a.status, a.body).headers, a.headers);
    }
  }

  lemma ResolveRouteAlike(t: Twins, f: Flow, g: Flow)
    requires Twinned(t) && FlowsAlike(t, f, g)
    ensures Alike(t, StepResolveRoute(t.a, f), StepResolveRoute(t.b, g))
  {
    hide Finish, Block, Pass, Heard;
  }

  lemma UsageRulesAlike(t: Twins, f: Flow, g: Flow)
    requires Twinned(t) && FlowsAlike(t, f, g)
    ensures Alike(t, StepUsageRules(t.a, f), StepUsageRules(t.b, g))
  {
    hide Finish, Block, Pass, Heard;
    if f.route.Some? && t.a.layer.processor.Some? {
      var (w, banned) := UsagePass(t.a, f, t.a.layer.processor.value, f.route.value.behaviorRules);
      var (u, _) := UsagePass(t.b, g, t.b.layer.processor.value, g.route.value.behaviorRules);
      BlockAlike(t, f.(world := w), g.(world := u), 403, ACTIVITY_BANNED_MESSAGE);
    }
  }

  lemma RouteIpsAlike(t: Twins, f: Flow, g: Flow)
    requires Twinned(t) && FlowsAlike(t, f, g)
    ensures Alike(t, StepRouteIps(t.a, f), StepRouteIps(t.b, g))
  {
    hide Finish, Block, Pass, Heard;
    FinishAlike(t, f, g, Failure());
    BlockAlike(t, f, g, 403, FORBIDDEN_MESSAGE);
  }

  lemma RouteCountriesAlike(t: Twins, f: Flow, g: Flow)
    requires Twinned(t) && FlowsAlike(t, f, g)
    ensures Alike(t, StepRouteCountries(t.a, f), StepRouteCountries(t.b, g))
  {
    hide Finish, Block, Pass, Heard;
    BlockAlike(t, f, g, 403, FORBIDDEN_MESSAGE);
  }

  lemma EmergencyAlike(t: Twins, f: Flow, g: Flow)
    requires Twinned(t) && FlowsAlike(t, f, g)
    ensures Alike(t, StepEmergency(t.a, f), StepEmergency(t.b, g))
  {
    hide Finish, Block, Pass, Heard;
    if t.a.layer.emergency.Some? {
      var (s, answer) := t.a.layer.emergency.value.decide(f.world.stages.emergency, f.facts);
      var f' := f.(world := f.world.(stages := f.world.stages.(emergency := s)));
      var g' := g.(world := g.world.(stages := g.world.stages.(emergency := s)));
      if answer.Some? { BlockAlike(t, f', g', answer.value.status, answer.value.body); }
    }
  }

  lemma HttpsAlike(t: Twins, f: Flow, g: Flow)
    requires Twinned(t) && FlowsAlike(t, f, g)
    ensures Alike(t, StepHttps(t.a, f), StepHttps(t.b, g))
  {
    hide Finish, Block, Pass, Heard;
    if t.a.layer.https.Some? {
      var (s, answer) := t.a.layer.https.value.decide(f.world.stages.https, HttpsQuestion(f.facts, f.route));
      var f' := f.(world := f.world.(stages := f.world.stages.(https := s)));
      var g' := g.(world := g.world.(stages := g.world.stages.(https := s)));
      if answer.Some? && ValidStatus(answer.value.status) { FinishAlike(t, f', g', RedirectAnswer(answer.value)); }
    } else {
      FinishAlike(t, f, g, RedirectAnswer(Redirect(301, HttpsUrl(f.facts))));
    }
  }

  lemma BufferAlike(t: Twins, f: Flow, g: Flow)
    requires Twinned(t) && FlowsAlike(t, f, g)
    ensures Alike(t, StepBuffer(t.a, f), StepBuffer(t.b, g))
  {
    hide Finish, Block, Pass, Heard;
    FinishAlike(t, f, g, Failure());
    FinishAlike(t, f, g, Oversize());
  }

  lemma RouteHeadersAlike(t: Twins, f: Flow, g: Flow)
    requires Twinned(t) && FlowsAlike(t, f, g)
    ensures Alike(t, StepRouteHeaders(t.a, f), StepRouteHeaders(t.b, g))
  {
    hide Finish, Block, Pass, Heard;
    if f.route.Some? {
      var pairs := HeaderPairs(f.parts.headers);
      var answer := t.a.engine.headersAuth(f.route.value.headerRules, name => FindPair(pairs, name));
      if answer.Some? { BlockAlike(t, f, g, answer.value.status, answer.value.body); }
    }
  }

  lemma HeadersAlike(t: Twins, f: Flow, g: Flow)
    requires Twinned(t) && FlowsAlike(t, f, g)
    ensures Alike(t, StepHeaders(t.a, f), StepHeaders(t.b, g))
  {
    hide Finish, Block, Pass, Heard;
    if t.a.layer.headersAuth.Some? {
      var (s, answer) := t.a.layer.headersAuth.value.decide(
        f.world.stages.headersAuth, f.facts.path, HeaderPairs(f.parts.headers));
      var f' := f.(world := f.world.(stages := f.world.stages.(headersAuth := s)));
      var g' := g.(world := g.world.(stages := g.world.stages.(headersAuth := s)));
      if answer.Some? { BlockAlike(t, f', g', answer.value.status, answer.value.body); }
    }
  }

  lemma RouteReferrerAlike(t: Twins, f: Flow, g: Flow)
    requires Twinned(t) && FlowsAlike(t, f, g)
    ensures Alike(t, StepRouteReferrer(t.a, f), StepRouteReferrer(t.b, g))
  {
    hide Finish, Block, Pass, Heard;
    BlockAlike(t, f, g, 403, REFERRER_MISSING_BODY);
    BlockAlike(t, f, g, 403, REFERRER_INVALID_BODY);
  }

  lemma ReferrerAlike(t: Twins, f: Flow, g: Flow)
    requires Twinned(t) && FlowsAlike(t, f, g)
    ensures Alike(t, StepReferrer(t.a, f), StepReferrer(t.b, g))
  {
    hide Finish, Block, Pass, Heard;
    if t.a.layer.referrer.Some? {
      var (s, answer) := t.a.layer.referrer.value.decide(f.world.stages.referrer, f.facts);
      var f' := f.(world := f.world.(stages := f.world.stages.(referrer := s)));
      var g' := g.(world := g.world.(stages := g.world.stages.(referrer := s)));
      if answer.Some? { BlockAlike(t, f', g', answer.value.status, answer.value.body); }
    }
  }

  lemma RouteValidatorsAlike(t: Twins, f: Flow, g: Flow)
    requires Twinned(t) && FlowsAlike(t, f, g)
    ensures Alike(t, StepRouteValidators(t.a, f), StepRouteValidators(t.b, g))
  {
    hide Finish, Block, Pass, Heard;
    if f.route.Some? {
      var answer := t.a.engine.validators(
        f.route.value.customValidators, f.facts, Utf8View(t.a.engine, f.buffered));
      if answer.Some? { BlockAlike(t, f, g, CustomStatus(answer.value), ""); }
    }
  }

  lemma ValidatorsAlike(t: Twins, f: Flow, g: Flow)
    requires Twinned(t) && FlowsAlike(t, f, g)
    ensures Alike(t, StepValidators(t.a, f), StepValidators(t.b, g))
  {
    hide Finish, Block, Pass, Heard;
    if t.a.layer.customChecks.Some? {
      var (s, answer) := t.a.layer.customChecks.value.validators(
        f.world.stages.customChecks, f.facts, Utf8View(t.a.engine, f.buffered));
      var f' := f.(world := f.world.(stages := f.world.stages.(customChecks := s)));
      var g' := g.(world := g.world.(stages := g.world.stages.(customChecks := s)));
      if answer.Some? { BlockAlike(t, f', g', CustomStatus(answer.value), ""); }
    }
  }

  lemma RouteWindowAlike(t: Twins, f: Flow, g: Flow)
    requires Twinned(t) && FlowsAlike(t, f, g)
    ensures Alike(t, StepRouteWindow(t.a, f), StepRouteWindow(t.b, g))
  {
    hide Finish, Block, Pass, Heard;
    BlockAlike(t, f, g, 403, TIME_WINDOW_BODY);
  }

  lemma WindowAlike(t: Twins, f: Flow, g: Flow)
    requires Twinned(t) && FlowsAlike(t, f, g)
    ensures Alike(t, StepWindow(t.a, f), StepWindow(t.b, g))
  {
    hide Finish, Block, Pass, Heard;
    if t.a.layer.timeWindow.Some? {
      var (s, answer) := t.a.layer.timeWindow.value.decide(f.world.stages.timeWindow, f.facts);
      var f' := f.(world := f.world.(stages := f.world.stages.(timeWindow := s)));
      var g' := g.(world := g.world.(stages := g.world.stages.(timeWindow := s)));
      if answer.Some? { BlockAlike(t, f', g', answer.value.status, answer.value.body); }
    }
  }

  lemma ScanAlike(t: Twins, f: Flow, g: Flow)
    requires Twinned(t) && FlowsAlike(t, f, g)
    ensures Alike(t, StepScan(t.a, f), StepScan(t.b, g))
  {
    hide Finish, Block, Pass, Heard;
    hide ScanSurfaces;
    GateIsNotScanned(f.parts, g.parts.extensions.gate, f.buffered);
    FinishAlike(t, f, g, Failure());
  }

  lemma BansAlike(t: Twins, f: Flow, g: Flow)
    requires Twinned(t) && FlowsAlike(t, f, g)
    ensures Alike(t, StepBans(t.a, f), StepBans(t.b, g))
  {
    hide Finish, Block, Pass, Heard;
    hide StageAnswer;
    if t.a.layer.stage.Some? {
      var (w, answer) := BanDecision(t.a, f, t.a.layer.stage.value);
      var (u, _) := BanDecision(t.b, g, t.b.layer.stage.value);
      if answer.Some? { FinishAlike(t, f.(world := w), g.(world := u), StageAnswer(answer.value)); }
    }
  }

  lemma GeoAlike(t: Twins, f: Flow, g: Flow)
    requires Twinned(t) && FlowsAlike(t, f, g) && SameFor(GeoArm, t)
    ensures Alike(t, StepGeo(t.a, f), StepGeo(t.b, g))
  {
    hide Finish, Block, Pass, Heard;
    if t.a.layer.geoBlocking.Some? {
      var (s, answer) := t.a.layer.geoBlocking.value.decide(f.world.stages.geo, f.facts.ip, f.facts.gate);
      var f' := f.(world := f.world.(stages := f.world.stages.(geo := s)));
      var g' := g.(world := g.world.(stages := g.world.stages.(geo := s)));
      if answer.Some? { BlockAlike(t, f', g', answer.value.status, answer.value.body); }
    }
  }

  lemma CloudDecisionAlike(t: Twins, f: Flow, g: Flow, selectors: Option<Selectors>)
    requires Twinned(t) && FlowsAlike(t, f, g) && SameFor(CloudArm, t)
    ensures Alike(t, CloudDecision(t.a, f, selectors), CloudDecision(t.b, g, selectors))
  {
    hide Block, Heard;
    if t.a.layer.cloud.Some? {
      var (s, answer) := t.a.layer.cloud.value.decide(f.world.stages.cloud, f.facts.ip, f.facts.gate, selectors);
      var f' := f.(world := f.world.(stages := f.world.stages.(cloud := s)));
      var g' := g.(world := g.world.(stages := g.world.stages.(cloud := s)));
      if answer.Some? { BlockAlike(t, f', g', answer.value.status, answer.value.body); }
    }
  }

  lemma CloudAlike(t: Twins, f: Flow, g: Flow)
    requires Twinned(t) && FlowsAlike(t, f, g) && SameFor(CloudArm, t)
    ensures Alike(t, StepCloud(t.a, f), StepCloud(t.b, g))
  {
    hide Finish, Block, Pass, Heard;
    hide CloudDecision;
    FinishAlike(t, f, g, Failure());
    CloudDecisionAlike(t, f, g, None);
    if f.route.Some? {
      CloudDecisionAlike(t, f, g, t.a.engine.parseSelectors(f.route.value.blockCloudProviders));
    }
  }

  lemma RouteAgentsAlike(t: Twins, f: Flow, g: Flow)
    requires Twinned(t) && FlowsAlike(t, f, g)
    ensures Alike(t, StepRouteAgents(t.a, f), StepRouteAgents(t.b, g))
  {
    hide Finish, Block, Pass, Heard;
    FinishAlike(t, f, g, Failure());
    BlockAlike(t, f, g, 403, AGENT_BODY);
  }

  lemma AgentAlike(t: Twins, f: Flow, g: Flow)
    requires Twinned(t) && FlowsAlike(t, f, g) && SameFor(AgentArm, t)
    ensures Alike(t, StepAgent(t.a, f), StepAgent(t.b, g))
  {
    hide Finish, Block, Pass, Heard;
    if t.a.layer.userAgent.Some? {
      var (s, answer) := t.a.layer.userAgent.value.decide(
        f.world.stages.userAgent,
        UserAgentInput(f.facts.ip, f.facts.gate, f.facts.path, f.facts.userAgent, f.verdict));
      var f' := f.(world := f.world.(stages := f.world.stages.(userAgent := s)));
      var g' := g.(world := g.world.(stages := g.world.stages.(userAgent := s)));
      if answer.Some? { BlockAlike(t, f', g', answer.value.status, answer.value.body); }
    }
  }

  /** An arm that neither is the gate, nor reads its decision, nor forwards. */
  predicate GateBlind(arm: Arm)
  {
    arm in ADMISSION[1..6] || arm in CONTENT || arm in SCREENING
  }

  lemma StepAlike(arm: Arm, t: Twins, f: Flow, g: Flow)
    requires GateBlind(arm) && SameFor(arm, t)
    requires Twinned(t) && FlowsAlike(t, f, g)
    ensures Alike(t, Step(arm, t.a, f), Step(arm, t.b, g))
  {
    hide StepPreflight, StepResolveRoute, StepUsageRules, StepRouteIps, StepRouteCountries,
      StepEmergency, StepHttps, StepBuffer, StepRouteHeaders, StepHeaders, StepRouteReferrer,
      StepReferrer, StepRouteValidators, StepValidators, StepRouteWindow, StepWindow, StepScan,
      StepBans, StepGeo, StepCloud, StepRouteAgents, StepAgent, StepExcludedPath, StepGlobalGate,
      StepCarrierTiers, StepTiers, StepThreat, StepCustomRequest, ForwardCall, Twinned,
      FlowsAlike;
    match arm {
      case Preflight => PreflightAlike(t, f, g);
      case ResolveRoute => ResolveRouteAlike(t, f, g);
      case UsageRules => UsageRulesAlike(t, f, g);
      case RouteIps => RouteIpsAlike(t, f, g);
      case RouteCountries => RouteCountriesAlike(t, f, g);
      case EmergencyMode => EmergencyAlike(t, f, g);
      case HttpsArm => HttpsAlike(t, f, g);
      case BufferArm => BufferAlike(t, f, g);
      case RouteHeaders => RouteHeadersAlike(t, f, g);
      case HeadersArm => HeadersAlike(t, f, g);
      case RouteReferrer => RouteReferrerAlike(t, f, g);
      case ReferrerArm => ReferrerAlike(t, f, g);
      case RouteValidators => RouteValidatorsAlike(t, f, g);
      case Validators => ValidatorsAlike(t, f, g);
      case RouteWindow => RouteWindowAlike(t, f, g);
      case WindowArm => WindowAlike(t, f, g);
      case ScanArm => ScanAlike(t, f, g);
      case BanArm => BansAlike(t, f, g);
      case GeoArm => GeoAlike(t, f, g);
      case CloudArm => CloudAlike(t, f, g);
      case RouteAgents => RouteAgentsAlike(t, f, g);
      case AgentArm => AgentAlike(t, f, g);
    }
  }

  lemma {:induction false} RunAlike(arms: seq<Arm>, t: Twins, f: Flow, g: Flow)
    requires forall x | x in arms :: GateBlind(x) && SameFor(x, t)
    requires Twinned(t) && FlowsAlike(t, f, g)
    ensures Alike(t, Run(arms, t.a, f), Run(arms, t.b, g))
  {
    hide Step, GateBlind, SameFor, Twinned, FlowsAlike;
    if arms != [] {
      StepAlike(arms[0], t, f, g);
      if Step(arms[0], t.a, f).Continue? {
        RunAlike(arms[1..], t, Step(arms[0], t.a, f).flow, Step(arms[0], t.b, g).flow);
      }
    }
  }

  // ---- arms that see more than the facts ---------------------------------------------------------

  lemma ForwardAlike(t: Twins, f: Flow, g: Flow, body: Octets)
    requires Twinned(t) && FlowsAlike(t, f, g) && g.parts == f.parts
    ensures Alike(t, ForwardCall(t.a, f, body), ForwardCall(t.b, g, body))
  {
    hide Pass, Heard;
    var v := f.world.(received := f.world.received + [Request(f.parts, body)]);
    var w := g.world.(received := g.world.received + [Request(g.parts, body)]);
    if t.a.inner.answer(v.received).Reply? {
      PassAlike(t, InputFromFacts(f.facts), ForwardedLane, t.a.inner.answer(v.received).response, v, w);
    }
  }

  lemma ExcludedStepAlike(t: Twins, f: Flow, g: Flow)
    requires Twinned(t) && FlowsAlike(t, f, g) && g.parts == f.parts
    ensures Alike(t, StepExcludedPath(t.a, f), StepExcludedPath(t.b, g))
  {
    hide ForwardCall, Heard;
    ForwardAlike(t, f, g, []);
  }

  lemma CarrierTiersAlike(t: Twins, f: Flow, g: Flow)
    requires Twinned(t) && FlowsAlike(t, f, g)
    ensures Alike(t, StepCarrierTiers(t.a, f), StepCarrierTiers(t.b, g))
  {
    hide Finish, Block, Pass, Heard;
    FinishAlike(t, f, g, Failure());
  }

  lemma TierDecisionNear(t: Twins, f: Flow, g: Flow, stage: RateLimitStage)
    requires Twinned(t) && FlowsAlike(t, f, g) && g.parts == f.parts && SameFor(TierArm, t)
    ensures TierDecision(t.b, g, stage).1 == TierDecision(t.a, f, stage).1
    ensures WorldsNear(t, TierDecision(t.a, f, stage).0, TierDecision(t.b, g, stage).0)
  {
    hide Heard;
  }

  lemma TiersAlike(t: Twins, f: Flow, g: Flow)
    requires Twinned(t) && FlowsAlike(t, f, g) && g.parts == f.parts && SameFor(TierArm, t)
    ensures Alike(t, StepTiers(t.a, f), StepTiers(t.b, g))
  {
    hide Finish, TierDecision, WorldsNear, StageAnswer;
    if t.a.layer.stage.Some? {
      TierDecisionNear(t, f, g, t.a.layer.stage.value);
      var (w, answer) := TierDecision(t.a, f, t.a.layer.stage.value);
      var (u, _) := TierDecision(t.b, g, t.b.layer.stage.value);
      if answer.Some? { FinishAlike(t, f.(world := w), g.(world := u), StageAnswer(answer.value)); }
    }
  }

  lemma CustomRequestAlike(t: Twins, f: Flow, g: Flow)
    requires Twinned(t) && FlowsAlike(t, f, g)
    ensures Alike(t, StepCustomRequest(t.a, f), StepCustomRequest(t.b, g))
  {
    hide Finish, Block, Pass, Heard;
    if t.a.layer.customChecks.Some? {
      var (s, answer) := t.a.layer.customChecks.value.request(
        f.world.stages.customChecks, f.facts, Utf8View(t.a.engine, f.buffered));
      var f' := f.(world := f.world.(stages := f.world.stages.(customChecks := s)));
      var g' := g.(world := g.world.(stages := g.world.stages.(customChecks := s)));
      if answer.Some? { BlockAlike(t, f', g', CustomStatus(answer.value), ""); }
    }
  }

  /** The arms no twin can tell apart, given the same request. */
  lemma MostStepsAlike(arm: Arm, t: Twins, f: Flow, g: Flow)
    requires arm != GlobalGate && arm != ThreatBlock && SameFor(arm, t)
    requires Twinned(t) && FlowsAlike(t, f, g) && g.parts == f.parts
    ensures Alike(t, Step(arm, t.a, f), Step(arm, t.b, g))
  {
    hide StepPreflight, StepResolveRoute, StepUsageRules, StepRouteIps, StepRouteCountries,
      StepEmergency, StepHttps, StepBuffer, StepRouteHeaders, StepHeaders, StepRouteReferrer,
      StepReferrer, StepRouteValidators, StepValidators, StepRouteWindow, StepWindow, StepScan,
      StepBans, StepGeo, StepCloud, StepRouteAgents, StepAgent, StepExcludedPath, StepGlobalGate,
      StepCarrierTiers, StepTiers, StepThreat, StepCustomRequest, ForwardCall, Twinned, WorldsNear, SameFor, GateBlind;
    match arm {
      case ExcludedPath => ExcludedStepAlike(t, f, g);
      case CarrierTiers => CarrierTiersAlike(t, f, g);
      case TierArm => TiersAlike(t, f, g);
      case CustomRequestArm => CustomRequestAlike(t, f, g);
      case ForwardArm => ForwardAlike(t, f, g, Rebuilt(f.buffered));
      case _ =>
        EveryOtherArmIsGateBlind(arm);
        StepAlike(arm, t, f, g);
    }
  }

  lemma EveryOtherArmIsGateBlind(arm: Arm)
    requires arm !in {ExcludedPath, GlobalGate, CarrierTiers, TierArm, ThreatBlock, CustomRequestArm, ForwardArm}
    ensures GateBlind(arm)
  {
    assert ADMISSION[1..6] == [Preflight, ResolveRoute, UsageRules, RouteIps, RouteCountries];
  }

  /** The request stays the same in both runs. */
  lemma PartsStaySame(arm: Arm, t: Twins, f: Flow, g: Flow)
    requires arm != GlobalGate && g.parts == f.parts
    requires Step(arm, t.a, f).Continue? && Step(arm, t.b, g).Continue?
    ensures Step(arm, t.b, g).flow.parts == Step(arm, t.a, f).flow.parts
  {
    hide Step;
    StepKeepsParts(arm, t.a, f);
    StepKeepsParts(arm, t.b, g);
  }

  lemma StepKeepsParts(arm: Arm, env: Env, f: Flow)
    requires arm != GlobalGate && Step(arm, env, f).Continue?
    ensures Step(arm, env, f).flow.parts == f.parts
  {
    hide StepPreflight, StepResolveRoute, StepUsageRules, StepRouteIps, StepRouteCountries,
      StepEmergency, StepHttps, StepBuffer, StepRouteHeaders, StepHeaders, StepRouteReferrer,
      StepReferrer, StepRouteValidators, StepValidators, StepRouteWindow, StepWindow, StepScan,
      StepBans, StepGeo, StepCloud, StepRouteAgents, StepAgent, StepGlobalGate,
      StepCarrierTiers, StepTiers, StepThreat, StepCustomRequest, Pass, KeepsAll, KeepsRunningBans, OnlyProcessorBans;
    if arm == ExcludedPath || arm == ForwardArm {
    } else {
      StepFrame(arm, env, f);
    }
  }

  lemma DenialBody(env: Env, f: Flow)
    ensures var o := Denial(env, f);
      o.Done? && o.exit.GateDenied? && BodyText(o.exit.response) == ErrorBody(env.layer, 403, FORBIDDEN_MESSAGE)
  {
    hide Pass, KeepsAll, KeepsRunningBans, OnlyProcessorBans;
    var plain := PlainText(403, ErrorBody(env.layer, 403, FORBIDDEN_MESSAGE));
    var input := InputFromParts(f.parts);
    var v := BlockHook(env.layer, f.world);
    PassFrame(env, input, GeneratedLane, plain, v);
    var (r, v1) := Pass(env, input, GeneratedLane, plain, v);
    PassFrame(env, input, GeneratedLane, r, v1);
  }

  lemma BlockBody(env: Env, f: Flow, status: U16, body: string)
    requires ValidStatus(status)
    ensures var o := Block(env, f, status, body); o.Done? && o.exit.Blocked? && BodyText(o.exit.response) == body
  {
    hide Pass, KeepsAll, KeepsRunningBans, OnlyProcessorBans;
    PassFrame(env, InputFromParts(f.parts), GeneratedLane, PlainText(status, body), f.world);
  }

  // ---- a panicking modifier ----------------------------------------------------------------------

  lemma DenialAlike(t: Twins, f: Flow, g: Flow)
    requires Twinned(t) && FlowsAlike(t, f, g) && g.parts == f.parts
    requires t.b.layer.customErrors == t.a.layer.customErrors
    ensures Alike(t, Denial(t.a, f), Denial(t.b, g))
  {
    hide Pass, Heard;
    var plain := PlainText(403, ErrorBody(t.a.layer, 403, FORBIDDEN_MESSAGE));
    var input := InputFromParts(f.parts);
    var v, w := BlockHook(t.a.layer, f.world), BlockHook(t.b.layer, g.world);
    PassAlike(t, input, GeneratedLane, plain, v, w);
    var (r, v1) := Pass(t.a, input, GeneratedLane, plain, v);
    PassAlike(t, input, GeneratedLane, r, v1, Pass(t.b, input, GeneratedLane, plain, w).1);
  }

  lemma GateAlike(t: Twins, f: Flow, g: Flow)
    requires Twinned(t) && FlowsAlike(t, f, g) && g.parts == f.parts
    requires SameFor(GlobalGate, t)
    ensures Alike(t, StepGlobalGate(t.a, f), StepGlobalGate(t.b, g))
    ensures StepGlobalGate(t.a, f).Continue? ==> StepGlobalGate(t.b, g).flow.parts == StepGlobalGate(t.a, f).flow.parts
  {
    hide Denial, Heard, Bypassed;
    DenialAlike(t, f, g);
    DenialBody(t.a, f);
  }

  lemma ThreatAlike(t: Twins, f: Flow, g: Flow)
    requires Twinned(t) && FlowsAlike(t, f, g) && SameFor(ThreatBlock, t)
    ensures Alike(t, StepThreat(t.a, f), StepThreat(t.b, g))
  {
    hide Block, Heard;
    BlockAlike(t, f.(world := BlockHook(t.a.layer, f.world)), g.(world := BlockHook(t.b.layer, g.world)), 400,
               ErrorBody(t.a.layer, 400, BLOCKED_MESSAGE));
  }

  /** One arm of two runs of one request, when it reads nothing that differs. */
  lemma CloseStepAlike(arm: Arm, t: Twins, f: Flow, g: Flow)
    requires Twinned(t) && FlowsAlike(t, f, g) && g.parts == f.parts
    requires SameFor(arm, t)
    ensures Alike(t, Step(arm, t.a, f), Step(arm, t.b, g))
    ensures Step(arm, t.a, f).Continue? ==> Step(arm, t.b, g).flow.parts == Step(arm, t.a, f).flow.parts
  {
    hide Step, SameFor, Twinned, WorldsNear, StepGlobalGate, StepThreat;
    if arm == GlobalGate {
      GateAlike(t, f, g);
      DispatchEnds(t.a, f);
      DispatchEnds(t.b, g);
    } else {
      if arm == ThreatBlock {
        ThreatAlike(t, f, g);
        DispatchSettlement(t.a, f);
        DispatchSettlement(t.b, g);
      } else {
        MostStepsAlike(arm, t, f, g);
      }
      if Step(arm, t.a, f).Continue? { PartsStaySame(arm, t, f, g); }
    }
  }

  lemma {:induction false} CloseRunAlike(arms: seq<Arm>, t: Twins, f: Flow, g: Flow)
    requires Twinned(t) && FlowsAlike(t, f, g) && g.parts == f.parts
    requires forall x | x in arms :: SameFor(x, t)
    ensures Alike(t, Run(arms, t.a, f), Run(arms, t.b, g))
    ensures Run(arms, t.a, f).Continue? ==> Run(arms, t.b, g).flow.parts == Run(arms, t.a, f).flow.parts
  {
    hide Step, SameFor, Twinned, WorldsNear;
    if arms != [] {
      CloseStepAlike(arms[0], t, f, g);
      if Step(arms[0], t.a, f).Continue? {
        CloseRunAlike(arms[1..], t, Step(arms[0], t.a, f).flow, Step(arms[0], t.b, g).flow);
      }
    }
  }

  /** Without a modifier to tell them apart the alike runs are the same. */
  lemma CloseIsSame(t: Twins, o: Outcome, p: Outcome)
    requires Alike(t, o, p) && !Unsteady(t)
    requires o.Continue? ==> p.Continue? && p.flow.parts == o.flow.parts
    ensures p == o
  {
  }

  /** From one flow, arms that read nothing in which the environments differ run the same. */
  lemma SameRun(arms: seq<Arm>, t: Twins, f: Flow)
    requires Twinned(t) && !Unsteady(t) && t.start == 0
    requires forall x | x in arms :: SameFor(x, t)
    ensures Run(arms, t.b, f) == Run(arms, t.a, f)
  {
    hide Run, SameFor;
    CloseRunAlike(arms, t, f, f);
    CloseIsSame(t, Run(arms, t.a, f), Run(arms, t.b, f));
  }

  /** The same layer with another modifier. */
  function WithModifier(env: Env, m: Option<ResponseModifier>): Env
  {
    env.(layer := env.layer.(responseModifier := m))
  }

  /** A modifier that shows what this one does and leaves the view alone where it panics. */
  function Steadied(m: ResponseModifier): ResponseModifier
  {
    ResponseModifier((bits: ResponseBits) => Some(Shown(Some(m), bits)))
  }

  /** Two runs of one request under modifiers that show the same stay alike to the end. */
  lemma ModifiersAlike(env: Env, m: Option<ResponseModifier>, parts: Parts, w: World)
    requires Steadies(env.layer.responseModifier, m)
    ensures Call(env, parts, w).Done? && Call(WithModifier(env, m), parts, w).Done?
    ensures Alike(Twins(env, WithModifier(env, m), w.journal.passes),
                  Call(env, parts, w), Call(WithModifier(env, m), parts, w))
  {
    hide Run;
    CloseRunAlike(ORDER, Twins(env, WithModifier(env, m), w.journal.passes), Start(parts, w), Start(parts, w));
    CallAnswers(env, parts, w);
  }

  /**
   A panic of the modifier shows nowhere, in any run, whatever the modifier does on
   other views: the exit, with its status, headers and body, and every store are
   those of a modifier that returns the view unchanged where this one panics. Only
   the error hook, if there is one, hears of it, at most once for every response pass.
   */
  lemma PanicsShowNowhere(env: Env, m: ResponseModifier, parts: Parts, w: World)
    ensures var o, p := Call(WithModifier(env, Some(m)), parts, w), Call(WithModifier(env, Some(Steadied(m))), parts, w);
      && o.Done? && p.Done? && o.exit == p.exit
      && p.world == o.world.(journal := o.world.journal.(errorHooks := p.world.journal.errorHooks))
      && 0 <= o.world.journal.errorHooks - p.world.journal.errorHooks <= o.world.journal.passes - w.journal.passes
      && (env.layer.onError.None? || env.layer.processor.None? ==> p == o)
  {
    hide Call, AlwaysPanics;
    ModifiersAlike(WithModifier(env, Some(m)), Some(Steadied(m)), parts, w);
  }

  /**
   A modifier that only panics is as good as none, and the error hook hears of it
   exactly once for every response pass.
   */
  lemma PanickingModifierIsNone(env: Env, m: ResponseModifier, parts: Parts, w: World)
    ensures var o, p := Call(WithModifier(env, Some(m)), parts, w), Call(WithModifier(env, None), parts, w);
      AlwaysPanics(Some(m)) ==>
        && o.Done? && p.Done? && o.exit == p.exit
        && p.world == o.world.(journal := o.world.journal.(errorHooks := p.world.journal.errorHooks))
        && o.world.journal.errorHooks - p.world.journal.errorHooks ==
           if env.layer.processor.Some? && env.layer.onError.Some?
           then o.world.journal.passes - w.journal.passes else 0
  {
    hide Call;
    if AlwaysPanics(Some(m)) {
      ModifiersAlike(WithModifier(env, Some(m)), None, parts, w);
    }
  }

  // ---- the address gate --------------------------------------------------------------------------

  /** The two environments differ in the global gate alone. */
  ghost predicate SameButGate(a: Env, b: Env)
  {
    b == a.(layer := a.layer.(ipGate := b.layer.ipGate))
  }

  /** The same answer in the same world, or two flows that differ in the gate decision they carry alone. */
  ghost predicate AlikeButGate(o: Outcome, p: Outcome)
  {
    if o.Continue?
    then p.Continue? && p.flow == o.flow.(parts := WithGate(o.flow.parts, p.flow.parts.extensions.gate))
    else p == o
  }

  lemma NothingHeard(a: Env, b: Env, o: Outcome, p: Outcome)
    requires SameButGate(a, b) && Alike(Twins(a, b, 0), o, p)
    ensures AlikeButGate(o, p)
  {
  }

  /** The gate lets the request pass: it allows the address, does not apply, or is passive. */
  predicate GatePasses(layer: GuardLayer, parts: Parts)
  {
    || layer.ipGate.None?
    || parts.extensions.clientIp.None?
    || layer.ipGate.value.evaluate(parts.extensions.clientIp.value).Allowed?
    || layer.passiveMode
  }

  /** Nothing but the gate itself reads it. */
  lemma OnlyTheGateReadsIt(a: Env, b: Env, start: nat)
    requires SameButGate(a, b)
    ensures forall x | x != GlobalGate :: SameFor(x, Twins(a, b, start))
  {
  }

  lemma PassingGateAlike(t: Twins, f: Flow, g: Flow)
    requires Twinned(t) && FlowsAlike(t, f, g)
    requires GatePasses(t.a.layer, f.parts) && GatePasses(t.b.layer, f.parts)
    ensures Alike(t, StepGlobalGate(t.a, f), StepGlobalGate(t.b, g))
  {
    hide Denial, Heard;
  }

  /** Everything in front of the carrier's tiers. */
  const THROUGH_AGENT: seq<Arm> := ADMISSION + CONTENT + SCREENING

  lemma SplitOrder()
    ensures THROUGH_AGENT == [ExcludedPath] + (ADMISSION[1..6] + ([GlobalGate] + (CONTENT + SCREENING)))
    ensures THROUGH_AGENT + SETTLEMENT == ORDER
    ensures forall x | x in ADMISSION[1..6] :: GateBlind(x) && x !in {ExcludedPath, GlobalGate, ForwardArm}
    ensures forall x | x in CONTENT + SCREENING :: GateBlind(x) && x != GlobalGate
  {
    assert ADMISSION == [ExcludedPath] + ADMISSION[1..6] + [GlobalGate];
  }

  lemma AlikeAppend(p: seq<Arm>, q: seq<Arm>, t: Twins, f: Flow, g: Flow)
    requires forall x | x in p :: GateBlind(x) && SameFor(x, t)
    requires Twinned(t) && FlowsAlike(t, f, g)
    requires Run(p, t.a, f).Continue? && Run(p, t.b, g).Continue? ==>
      Alike(t, Run(q, t.a, Run(p, t.a, f).flow), Run(q, t.b, Run(p, t.b, g).flow))
    ensures Alike(t, Run(p + q, t.a, f), Run(p + q, t.b, g))
  {
    hide Step, GateBlind, SameFor, Twinned, FlowsAlike;
    RunAlike(p, t, f, g);
    RunAppend(p, q, t.a, f);
    RunAppend(p, q, t.b, g);
  }

  lemma AlikeGoesOn(t: Twins, o: Outcome, p: Outcome)
    requires Alike(t, o, p)
    ensures o.Continue? <==> p.Continue?
    ensures o.Continue? ==> FlowsAlike(t, o.flow, p.flow)
  {
    hide FlowsAlike;
  }

  /** From the gate on. */
  lemma FromGateAlike(rest: seq<Arm>, t: Twins, f: Flow, g: Flow)
    requires forall x | x in rest :: GateBlind(x) && SameFor(x, t)
    requires Twinned(t) && FlowsAlike(t, f, g)
    requires GatePasses(t.a.layer, f.parts) && GatePasses(t.b.layer, f.parts)
    ensures Alike(t, Run([GlobalGate] + rest, t.a, f), Run([GlobalGate] + rest, t.b, g))
  {
    hide Step, StepGlobalGate, Run, GateBlind, SameFor, Twinned, FlowsAlike, GatePasses, Alike;
    PassingGateAlike(t, f, g);
    DispatchEnds(t.a, f);
    DispatchEnds(t.b, g);
    AlikeGoesOn(t, Step(GlobalGate, t.a, f), Step(GlobalGate, t.b, g));
    RunFirst(GlobalGate, rest, t.a, f);
    RunFirst(GlobalGate, rest, t.b, g);
    if Step(GlobalGate, t.a, f).Continue? {
      RunAlike(rest, t, Step(GlobalGate, t.a, f).flow, Step(GlobalGate, t.b, g).flow);
    }
  }

  lemma KeepsClient(mid: seq<Arm>, env: Env, f: Flow)
    requires GlobalGate !in mid && ForwardArm !in mid && ExcludedPath !in mid
    requires Run(mid, env, f).Continue?
    ensures Run(mid, env, f).flow.parts == f.parts
  {
    hide Step;
    RunFrame(mid, env, f);
  }

  /** Arms blind to the gate, the gate, and more such arms. */
  lemma AroundGateAlike(mid: seq<Arm>, rest: seq<Arm>, t: Twins, f: Flow)
    requires forall x | x in mid :: GateBlind(x) && SameFor(x, t)
    requires forall x | x in rest :: GateBlind(x) && SameFor(x, t)
    requires GlobalGate !in mid && ForwardArm !in mid && ExcludedPath !in mid
    requires Twinned(t) && FlowsAlike(t, f, f)
    requires GatePasses(t.a.layer, f.parts) && GatePasses(t.b.layer, f.parts)
    ensures Alike(t, Run(mid + ([GlobalGate] + rest), t.a, f), Run(mid + ([GlobalGate] + rest), t.b, f))
  {
    hide Run, GateBlind, SameFor, Twinned, FlowsAlike, GatePasses, Alike;
    if Run(mid, t.a, f).Continue? && Run(mid, t.b, f).Continue? {
      KeepsClient(mid, t.a, f);
      RunAlike(mid, t, f, f);
      AlikeGoesOn(t, Run(mid, t.a, f), Run(mid, t.b, f));
      FromGateAlike(rest, t, Run(mid, t.a, f).flow, Run(mid, t.b, f).flow);
    }
    AlikeAppend(mid, [GlobalGate] + rest, t, f, f);
  }

  /** The excluded path in front of them. */
  lemma FromExcludedAlike(arms: seq<Arm>, t: Twins, f: Flow)
    requires Twinned(t) && FlowsAlike(t, f, f)
    requires Alike(t, Run(arms, t.a, f), Run(arms, t.b, f))
    ensures Alike(t, Run([ExcludedPath] + arms, t.a, f), Run([ExcludedPath] + arms, t.b, f))
  {
    hide Step, StepExcludedPath, Run, Twinned, FlowsAlike, Alike;
    ExcludedStepAlike(t, f, f);
    AlikeGoesOn(t, StepExcludedPath(t.a, f), StepExcludedPath(t.b, f));
    DispatchEnds(t.a, f);
    DispatchEnds(t.b, f);
    RunFirst(ExcludedPath, arms, t.a, f);
    RunFirst(ExcludedPath, arms, t.b, f);
    if StepExcludedPath(t.a, f).Continue? {
      PassedExcluded(t.a, f);
      PassedExcluded(t.b, f);
    }
  }

  /** Twins that start alike stay alike through the user-agent arm when both gates pass. */
  lemma TwinsThroughAgent(t: Twins, parts: Parts, w: World)
    requires Twinned(t) && WorldsNear(t, w, w)
    requires forall x | x != GlobalGate :: SameFor(x, t)
    requires GatePasses(t.a.layer, parts) && GatePasses(t.b.layer, parts)
    ensures Alike(t, Run(THROUGH_AGENT, t.a, Start(parts, w)), Run(THROUGH_AGENT, t.b, Start(parts, w)))
  {
    hide Run, GateBlind, SameFor, Twinned, WorldsNear, GatePasses, Alike;
    SplitOrder();
    var mid, rest := ADMISSION[1..6], CONTENT + SCREENING;
    AroundGateAlike(mid, rest, t, Start(parts, w));
    FromExcludedAlike(mid + ([GlobalGate] + rest), t, Start(parts, w));
  }

  /**
   Gate noninterference. For two layers that differ only in the global gate and
   let the request pass, every arm through the user-agent arm answers alike in the
   same world, and a request that gets behind them carries the same locals into the
   tiers but for the gate decision.
   */
  lemma GateIsInvisibleBeforeTheTiers(a: Env, b: Env, parts: Parts, w: World)
    requires SameButGate(a, b)
    requires GatePasses(a.layer, parts) && GatePasses(b.layer, parts)
    ensures AlikeButGate(Run(THROUGH_AGENT, a, Start(parts, w)), Run(THROUGH_AGENT, b, Start(parts, w)))
    ensures Run(THROUGH_AGENT, a, Start(parts, w)).Done? ==>
              Call(a, parts, w) == Run(THROUGH_AGENT, a, Start(parts, w)) == Call(b, parts, w)
  {
    hide Run, GatePasses, SameFor;
    OnlyTheGateReadsIt(a, b, 0);
    TwinsThroughAgent(Twins(a, b, 0), parts, w);
    NothingHeard(a, b, Run(THROUGH_AGENT, a, Start(parts, w)), Run(THROUGH_AGENT, b, Start(parts, w)));
    SplitOrder();
    RunAppend(THROUGH_AGENT, SETTLEMENT, a, Start(parts, w));
    RunAppend(THROUGH_AGENT, SETTLEMENT, b, Start(parts, w));
  }

  lemma PassedExcluded(env: Env, f: Flow)
    requires StepExcludedPath(env, f).Continue?
    ensures StepExcludedPath(env, f) == Continue(f) && f.facts.path !in env.layer.excludePaths
  {
    hide Pass;
  }
}
