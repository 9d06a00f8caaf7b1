/**
 The standalone stage layers of `src/stages.rs`: one gate around one deciding
 stage, the list of the installed stages in pipeline order, and the service a
 reverse fold of that list builds.
 */
module Stages {
  import opened Authority
  import opened Engine
  import opened Http
  import opened Layer
  import opened Octets
  import opened Pipeline
  import opened Wrappers

  datatype StageLayer =
    | EmergencyLayer(emergency: EmergencyStage)
    | HttpsLayer(https: HttpsStage)
    | HeadersAuthLayer(headersAuth: HeadersAuthStage)
    | ReferrerLayer(referrer: GateStage)
    | ValidatorsLayer(validators: CustomChecksStage)
    | TimeWindowLayer(timeWindow: GateStage)
    | BansLayer(bans: RateLimitStage)
    | GeoLayer(geo: GeoStage)
    | CloudLayer(cloud: CloudStage)
    | UserAgentLayer(userAgent: UserAgentStage)
    | RateLimitLayer(tiers: RateLimitStage)
    | CustomRequestLayer(request: CustomChecksStage)

  datatype Verdict =
    | EmergencyVerdict(emergencyAnswer: Answer)
    | RedirectVerdict(redirect: Redirect)
    | HeadersVerdict(headersAnswer: StatusAnswer)
    | GateAnswered(gateAnswer: Answer)
    | ValidatorVerdict(failure: CustomAnswer)
    | CustomVerdict(customAnswer: CustomAnswer)
    | StageVerdict(stageAnswer: StageResponse)

  /** What a stack of layers reads besides the request. */
  datatype StackEnv = StackEnv(engine: Engine, inner: Inner, now: nat)

  // ---- rendering ------------------------------------------------------------------------

  /** A status that does not exist becomes 403 here, where the fused service panics. */
  function RenderBlock(status: U16, body: string, retryAfter: Option<nat>): Response
  {
    Response(if ValidStatus(status) then status else 403,
             if retryAfter.Some? then map["retry-after" := Seconds(retryAfter.value)] else map[],
             Generated(body))
  }

  /** `render_verdict`; a redirect with a status that does not exist panics. */
  function Render(v: Verdict): Exit
  {
    match v
    case EmergencyVerdict(a) => Blocked(RenderBlock(a.status, a.body, None))
    case RedirectVerdict(r) =>
      if ValidStatus(r.status) then Blocked(Response(r.status, map["location" := Target(r.location)], Generated("")))
      else Panicked
    case HeadersVerdict(a) => Blocked(RenderBlock(a.status, a.body, None))
    case GateAnswered(a) => Blocked(RenderBlock(a.status, a.body, None))
    case ValidatorVerdict(a) => Blocked(RenderBlock(CustomStatus(a), "", None))
    case CustomVerdict(a) => Blocked(RenderBlock(CustomStatus(a), "", None))
    case StageVerdict(a) =>
      Blocked(RenderBlock(a.status, if a.customBody.Some? then a.customBody.value else a.body, a.retryAfter))
  }

  // ---- deciding ------------------------------------------------------------------------

  function Lift<A>(answer: Option<A>, verdict: A -> Verdict): Option<Verdict>
  {
    if answer.Some? then Some(verdict(answer.value)) else None
  }

  /** The decision of one stage over the facts of the request (the `Decides` implementations). */
  function Decide(l: StageLayer, e: StackEnv, facts: Facts, pairs: seq<(string, string)>, w: World)
    : (World, Option<Verdict>)
  {
    match l
    case EmergencyLayer(stage) =>
      var (s, a) := stage.decide(w.stages.emergency, facts);
      (w.(stages := w.stages.(emergency := s)), Lift(a, x => EmergencyVerdict(x)))
    case HttpsLayer(stage) =>
      var (s, a) := stage.decide(w.stages.https, HttpsQuestion(facts, None));
      (w.(stages := w.stages.(https := s)), Lift(a, x => RedirectVerdict(x)))
    case HeadersAuthLayer(stage) =>
      var (s, a) := stage.decide(w.stages.headersAuth, facts.path, pairs);
      (w.(stages := w.stages.(headersAuth := s)), Lift(a, x => HeadersVerdict(x)))
    case ReferrerLayer(stage) =>
      var (s, a) := stage.decide(w.stages.referrer, facts);
      (w.(stages := w.stages.(referrer := s)), Lift(a, x => GateAnswered(x)))
    case ValidatorsLayer(stage) =>
      var (s, a) := stage.validators(w.stages.customChecks, facts, None);
      (w.(stages := w.stages.(customChecks := s)), Lift(a, x => ValidatorVerdict(x)))
    case TimeWindowLayer(stage) =>
      var (s, a) := stage.decide(w.stages.timeWindow, facts);
      (w.(stages := w.stages.(timeWindow := s)), Lift(a, x => GateAnswered(x)))
    case BansLayer(stage) =>
      var (t, a) := e.engine.decideBans(stage.knobs, BansOf(w, stage.manager), e.now, facts.ip);
      (WithBans(w, stage.manager, t), Lift(a, x => StageVerdict(x)))
    case GeoLayer(stage) =>
      var (s, a) := stage.decide(w.stages.geo, facts.ip, facts.gate);
      (w.(stages := w.stages.(geo := s)), Lift(a, x => StageVerdict(x)))
    case CloudLayer(stage) =>
      var (s, a) := stage.decide(w.stages.cloud, facts.ip, facts.gate, None);
      (w.(stages := w.stages.(cloud := s)), Lift(a, x => StageVerdict(x)))
    case UserAgentLayer(stage) =>
      var (s, a) := stage.decide(
        w.stages.userAgent, UserAgentInput(facts.ip, facts.gate, facts.path, facts.userAgent, None));
      (w.(stages := w.stages.(userAgent := s)), Lift(a, x => StageVerdict(x)))
    case RateLimitLayer(stage) =>
      var (t, a) := e.engine.decideTiers(
        stage.knobs, TierStores(w.windows, w.counts, BansOf(w, stage.manager)), e.now,
        TierInput(facts.ip, facts.path, None, facts.gate, None));
      (WithBans(w, stage.manager, t.bans).(windows := t.windows, counts := t.counts), Lift(a, x => StageVerdict(x)))
    case CustomRequestLayer(stage) =>
      var (s, a) := stage.request(w.stages.customChecks, facts, None);
      (w.(stages := w.stages.(customChecks := s)), Lift(a, x => CustomVerdict(x)))
  }

  // ---- services -------------------------------------------------------------------------

  /** A service as the layers build it: a gate in front of a service, or the innermost one. */
  datatype Service = Innermost | Gated(layer: StageLayer, inner: Service)

  function CallInnermost(e: StackEnv, parts: Parts, body: Octets, w: World): (Exit, World)
  {
    var w' := w.(received := w.received + [Request(parts, body)]);
    match e.inner.answer(w'.received)
    case Failed(error) => (InnerError(error), w')
    case Reply(response) => (Forwarded(response), w')
  }

  /** `pass_gate`: decide on freshly extracted facts, render, or hand the request on. */
  function CallService(s: Service, e: StackEnv, parts: Parts, body: Octets, w: World): (Exit, World)
  {
    match s
    case Innermost => CallInnermost(e, parts, body, w)
    case Gated(layer, inner) =>
      var (w', verdict) := Decide(layer, e, Extract(parts), HeaderPairs(parts.headers), w);
      if verdict.Some? then (Render(verdict.value), w') else CallService(inner, e, parts, body, w')
  }

  /** The service whose outermost gate is the first layer. */
  function Stack(layers: seq<StageLayer>): Service
  {
    if layers == [] then Innermost else Gated(layers[0], Stack(layers[1..]))
  }

  /** The reverse fold over the innermost service. */
  method FoldInReverse(layers: seq<StageLayer>) returns (service: Service)
    ensures service == Stack(layers)
  {
    service := Innermost;
    var k := |layers|;
    while k > 0
      invariant 0 <= k <= |layers|
      invariant service == Stack(layers[k..])
    {
      k := k - 1;
      assert layers[k..][1..] == layers[k + 1..];
      service := Gated(layers[k], service);
    }
    assert layers[0..] == layers;
  }

  /** The world after the first `k` layers have decided, whatever they said. */
  function Threaded(layers: seq<StageLayer>, e: StackEnv, parts: Parts, w: World): World
  {
    if layers == [] then w
    else Threaded(layers[1..], e, parts, Decide(layers[0], e, Extract(parts), HeaderPairs(parts.headers), w).0)
  }

  /** What layer `k` says when the layers in front of it have run. */
  function VerdictAt(layers: seq<StageLayer>, k: nat, e: StackEnv, parts: Parts, w: World): Option<Verdict>
    requires k < |layers|
  {
    Decide(layers[k], e, Extract(parts), HeaderPairs(parts.headers), Threaded(layers[..k], e, parts, w)).1
  }

  /** The prefix of a list seen from its second element. */
  lemma Shifted(layers: seq<StageLayer>, k: nat, e: StackEnv, parts: Parts, w: World)
    requires 0 < k <= |layers|
    ensures var w1 := Decide(layers[0], e, Extract(parts), HeaderPairs(parts.headers), w).0;
      Threaded(layers[..k], e, parts, w) == Threaded(layers[1..][..k - 1], e, parts, w1)
  {
    hide Decide;
    assert layers[..k][0] == layers[0] && layers[..k][1..] == layers[1..][..k - 1];
  }

  /**
   The first answer in list order wins, for a list of any length: the stack
   answers with the first layer that decides, and the stores are those the
   layers up to it have left.
   */
  lemma {:induction false} FirstAnswerWins(layers: seq<StageLayer>, k: nat, e: StackEnv, parts: Parts, body: Octets, w: World)
    requires k < |layers|
    requires forall j: nat | j < k :: VerdictAt(layers, j, e, parts, w).None?
    requires VerdictAt(layers, k, e, parts, w).Some?
    ensures CallService(Stack(layers), e, parts, body, w)
            == (Render(VerdictAt(layers, k, e, parts, w).value), Threaded(layers[..k + 1], e, parts, w))
    decreases k
  {
    hide Decide, Render;
    Shifted(layers, k + 1, e, parts, w);
    if k > 0 {
      assert VerdictAt(layers, 0, e, parts, w).None?;
      var w1 := Decide(layers[0], e, Extract(parts), HeaderPairs(parts.headers), w).0;
      forall j: nat | j < k ensures VerdictAt(layers[1..], j, e, parts, w1) == VerdictAt(layers, j + 1, e, parts, w) {
        Shifted(layers, j + 1, e, parts, w);
      }
      assert forall j: nat | j < k - 1 :: VerdictAt(layers[1..], j, e, parts, w1).None?;
      FirstAnswerWins(layers[1..], k - 1, e, parts, body, w1);
    }
  }

  /** When no layer decides, the innermost service gets the request unchanged. */
  lemma {:induction false} NobodyAnswers(layers: seq<StageLayer>, e: StackEnv, parts: Parts, body: Octets, w: World)
    requires forall j: nat | j < |layers| :: VerdictAt(layers, j, e, parts, w).None?
    ensures CallService(Stack(layers), e, parts, body, w)
            == CallInnermost(e, parts, body, Threaded(layers, e, parts, w))
    decreases |layers|
  {
    hide Decide, Render;
    if layers != [] {
      assert VerdictAt(layers, 0, e, parts, w).None?;
      var w1 := Decide(layers[0], e, Extract(parts), HeaderPairs(parts.headers), w).0;
      forall j: nat | j < |layers| - 1 ensures VerdictAt(layers[1..], j, e, parts, w1).None? {
        Shifted(layers, j + 1, e, parts, w);
        assert VerdictAt(layers, j + 1, e, parts, w).None?;
      }
      NobodyAnswers(layers[1..], e, parts, body, w1);
    }
  }

  /** The private state a layer keeps; the two rate-limit layers use the shared stores instead. */
  predicate Owns(l: StageLayer, v: StageStates, w: StageStates)
  {
    match l
    case EmergencyLayer(_) => w == v.(emergency := w.emergency)
    case HttpsLayer(_) => w == v.(https := w.https)
    case HeadersAuthLayer(_) => w == v.(headersAuth := w.headersAuth)
    case ReferrerLayer(_) => w == v.(referrer := w.referrer)
    case ValidatorsLayer(_) => w == v.(customChecks := w.customChecks)
    case TimeWindowLayer(_) => w == v.(timeWindow := w.timeWindow)
    case BansLayer(_) => w == v
    case GeoLayer(_) => w == v.(geo := w.geo)
    case CloudLayer(_) => w == v.(cloud := w.cloud)
    case UserAgentLayer(_) => w == v.(userAgent := w.userAgent)
    case RateLimitLayer(_) => w == v
    case CustomRequestLayer(_) => w == v.(customChecks := w.customChecks)
  }

  /** A decision writes the layer's own state, and the shared stores only for the two rate-limit layers. */
  lemma DecideFrame(l: StageLayer, e: StackEnv, facts: Facts, pairs: seq<(string, string)>, w: World)
    ensures var w' := Decide(l, e, facts, pairs, w).0;
      && Owns(l, w.stages, w'.stages)
      && w'.received == w.received && w'.tracker == w.tracker && w'.journal == w.journal
      && (!l.RateLimitLayer? ==> w'.windows == w.windows && w'.counts == w.counts)
      && (!l.RateLimitLayer? && !l.BansLayer? ==> w'.bans == w.bans)
  {
  }

  // ---- the installed stages ------------------------------------------------------------------

  function Installed<S>(stage: Option<S>, make: S -> StageLayer): seq<StageLayer>
  {
    if stage.Some? then [make(stage.value)] else []
  }

  /** The standalone layer that stands for an arm, if its stage is installed. */
  function LayerFor(arm: Arm, l: GuardLayer, limits: Option<RateLimitStage>): seq<StageLayer>
  {
    match arm
    case EmergencyMode => Installed(l.emergency, s => EmergencyLayer(s))
    case HttpsArm => Installed(l.https, s => HttpsLayer(s))
    case HeadersArm => Installed(l.headersAuth, s => HeadersAuthLayer(s))
    case ReferrerArm => Installed(l.referrer, s => ReferrerLayer(s))
    case Validators => Installed(l.customChecks, s => ValidatorsLayer(s))
    case WindowArm => Installed(l.timeWindow, s => TimeWindowLayer(s))
    case BanArm => Installed(limits, s => BansLayer(s))
    case GeoArm => Installed(l.geoBlocking, s => GeoLayer(s))
    case CloudArm => Installed(l.cloud, s => CloudLayer(s))
    case AgentArm => Installed(l.userAgent, s => UserAgentLayer(s))
    case TierArm => Installed(limits, s => RateLimitLayer(s))
    case CustomRequestArm => Installed(l.customChecks, s => CustomRequestLayer(s))
    case _ => []
  }

  function LayersFor(arms: seq<Arm>, l: GuardLayer, limits: Option<RateLimitStage>): seq<StageLayer>
  {
    if arms == [] then [] else LayerFor(arms[0], l, limits) + LayersFor(arms[1..], l, limits)
  }

  lemma {:induction false} LayersForAppend(a: seq<Arm>, b: seq<Arm>, l: GuardLayer, limits: Option<RateLimitStage>)
    ensures LayersFor(a + b, l, limits) == LayersFor(a, l, limits) + LayersFor(b, l, limits)
  {
    hide LayerFor;
    if a == [] {
      assert a + b == b;
    } else {
      assert (a + b)[0] == a[0] && (a + b)[1..] == a[1..] + b;
      LayersForAppend(a[1..], b, l, limits);
    }
  }

  /** `rate_limit_stage`: the wrapped stage, or one built on demand when a store is installed. */
  method RateLimitStageOf(l: GuardLayer) returns (limits: Option<RateLimitStage>)
    ensures l.stage.Some? ==> limits == l.stage
    ensures l.stage.None? ==> (limits.Some? <==> l.rateLimiter.Some? || l.banState.Some?)
    ensures l.stage.None? && limits.Some? ==> BuiltFrom(limits.value, l) && EmptyWhereMissing(limits.value, l)
    ensures l.stage.None? && limits.Some? && l.rateLimiter.None? ==> fresh(limits.value.limiter)
    ensures l.stage.None? && limits.Some? && l.banState.None? ==>
      fresh(limits.value.manager) && fresh(limits.value.counters)
  {
    if l.stage.Some? {
      return l.stage;
    }
    if l.rateLimiter.Some? || l.banState.Some? {
      var stage := BuildStage(l);
      return Some(stage);
    }
    return None;
  }

  lemma LayersForFirst(x: Arm, rest: seq<Arm>, l: GuardLayer, limits: Option<RateLimitStage>)
    ensures LayersFor([x] + rest, l, limits) == LayerFor(x, l, limits) + LayersFor(rest, l, limits)
  {
    hide LayerFor;
    assert ([x] + rest)[0] == x && ([x] + rest)[1..] == rest;
  }

  /** Arms without a layer drop out. */
  lemma {:induction false} LayerlessArms(arms: seq<Arm>, l: GuardLayer, limits: Option<RateLimitStage>)
    requires forall x | x in arms :: LayerFor(x, l, limits) == []
    ensures LayersFor(arms, l, limits) == []
  {
    hide LayerFor;
    if arms != [] { LayerlessArms(arms[1..], l, limits); }
  }
}
