/**
 Whole calls: how a request gets to the wrapped service, what the service is
 handed, and what a call costs. The results hold for every engine, every layer
 and every request.
 */
module Runs {
  import opened BanTables
  import opened BodyBuffer
  import opened Engine
  import opened Frames
  import opened Http
  import opened Layer
  import opened Octets
  import opened Pipeline
  import opened Readings
  import opened Wrappers

  // ---- runs of arms ---------------------------------------------------------------------

  /** A run that passes writes only the locals its arms are about. */
  ghost predicate RunPasses(arms: seq<Arm>, f: Flow, g: Flow)
  {
    && g.facts == f.facts
    && g.parts == WithGate(f.parts, g.parts.extensions.gate)
    && (GlobalGate !in arms ==> g.parts == f.parts)
    && (ResolveRoute !in arms ==> g.route == f.route)
    && (BufferArm !in arms ==> g.buffered == f.buffered)
    && (ScanArm !in arms ==> g.verdict == f.verdict)
    && (CarrierTiers !in arms ==> g.tiers == f.tiers)
    && (RouteIps !in arms ==> g.skipIpLists == f.skipIpLists)
    && (RouteCountries !in arms ==> g.skipCountries == f.skipCountries)
    && (TierArm !in arms ==> SameLimits(f.world, g.world))
    && g.world.received == f.world.received
    && g.world.journal.passes == f.world.journal.passes
    && g.world.journal.headerEvents == f.world.journal.headerEvents
    && g.world.journal.blockHooks == f.world.journal.blockHooks
  }

  /** A run that answers does so without the wrapped service. */
  ghost predicate RunAnswers(layer: GuardLayer, arms: seq<Arm>, v: World, exit: Exit, w: World)
  {
    && !Reaches(exit)
    && w.received == v.received
    && (TierArm !in arms ==> SameLimits(v, w))
    && w.journal.passes == v.journal.passes + PassCost(layer, exit)
    && w.journal.headerEvents == v.journal.headerEvents
    && (GlobalGate !in arms && ThreatBlock !in arms ==> w.journal.blockHooks == v.journal.blockHooks)
  }

  ghost predicate RunFramed(arms: seq<Arm>, env: Env, f: Flow, o: Outcome)
  {
    match o
    case Continue(g) => RunPasses(arms, f, g)
    case Done(exit, w) => RunAnswers(env.layer, arms, f.world, exit, w)
  }

  /** What an arm did and what the arms behind it did, put together. */
  lemma PassesOnThenRunPasses(arms: seq<Arm>, f: Flow, g: Flow, h: Flow)
    requires arms != [] && PassesOn(arms[0], f, g) && RunPasses(arms[1..], g, h)
    ensures RunPasses(arms, f, h)
  {
    hide Remembers;
    assert forall x :: x !in arms ==> x != arms[0] && x !in arms[1..];
  }

  lemma PassesOnThenRunAnswers(layer: GuardLayer, arms: seq<Arm>, f: Flow, g: Flow, exit: Exit, w: World)
    requires arms != [] && PassesOn(arms[0], f, g) && RunAnswers(layer, arms[1..], g.world, exit, w)
    ensures RunAnswers(layer, arms, f.world, exit, w)
  {
    hide Remembers;
    assert forall x :: x !in arms ==> x != arms[0] && x !in arms[1..];
  }

  lemma PassesOnKeepsFacts(arm: Arm, f: Flow, g: Flow)
    requires PassesOn(arm, f, g)
    ensures g.facts == f.facts
  {
    hide Remembers;
  }

  lemma {:induction false} RunFrame(arms: seq<Arm>, env: Env, f: Flow)
    requires ForwardArm !in arms
    requires f.facts.path !in env.layer.excludePaths || ExcludedPath !in arms
    ensures RunFramed(arms, env, f, Run(arms, env, f))
  {
    hide Step, PassesOn, RunPasses, KeepsRunningBans, KeepsAll, OnlyProcessorBans;
    if arms == [] {
      EmptyRunPasses(f);
    } else {
      StepFrame(arms[0], env, f);
      match Step(arms[0], env, f) {
        case Continue(g) =>
          PassesOnKeepsFacts(arms[0], f, g);
          RunFrame(arms[1..], env, g);
          match Run(arms[1..], env, g) {
            case Continue(h) => PassesOnThenRunPasses(arms, f, g, h);
            case Done(exit, w) => PassesOnThenRunAnswers(env.layer, arms, f, g, exit, w);
          }
        case Done(_, _) =>
      }
    }
  }

  lemma EmptyRunPasses(f: Flow)
    ensures RunPasses([], f, f)
  {
  }

  /** A run that passed its arms passed each of them. */
  lemma Through(a: seq<Arm>, x: Arm, b: seq<Arm>, env: Env, f: Flow)
    requires Run(a + [x] + b, env, f).Continue?
    ensures Run(a, env, f).Continue?
    ensures Step(x, env, Run(a, env, f).flow).Continue?
    ensures Run(b, env, Step(x, env, Run(a, env, f).flow).flow) == Run(a + [x] + b, env, f)
  {
    hide Step;
    assert a + [x] + b == a + ([x] + b);
    RunAppend(a, [x] + b, env, f);
    assert ([x] + b)[0] == x && ([x] + b)[1..] == b;
  }

  /** Every arm but the forwarding one. */
  const BEFORE_FORWARD: seq<Arm> := ADMISSION + CONTENT + SCREENING + SETTLEMENT[..4]

  /** The position of an arm in the order. */
  const GATE_AT: nat := 6
  const BUFFER_AT: nat := 9
  const SCAN_AT: nat := 18
  const BANS_AT: nat := 19
  const GEO_AT: nat := 20
  const CLOUD_AT: nat := 21
  const AGENT_AT: nat := 23
  const TIERS_AT: nat := 25
  const THREAT_AT: nat := 26
  const ALL: nat := 28

  lemma Positions()
    ensures |BEFORE_FORWARD| == ALL && ORDER == BEFORE_FORWARD + [ForwardArm]
    ensures BEFORE_FORWARD[..ALL] == BEFORE_FORWARD
    ensures BEFORE_FORWARD[0] == ExcludedPath && BEFORE_FORWARD[2] == ResolveRoute
    ensures BEFORE_FORWARD[GATE_AT] == GlobalGate
    ensures BEFORE_FORWARD[BUFFER_AT] == BufferArm && BEFORE_FORWARD[SCAN_AT] == ScanArm
    ensures BEFORE_FORWARD[BANS_AT] == BanArm && BEFORE_FORWARD[TIERS_AT] == TierArm
    ensures BEFORE_FORWARD[GEO_AT] == GeoArm && BEFORE_FORWARD[CLOUD_AT] == CloudArm
    ensures BEFORE_FORWARD[22] == RouteAgents && BEFORE_FORWARD[AGENT_AT] == AgentArm
    ensures BEFORE_FORWARD[THREAT_AT] == ThreatBlock
    ensures ForwardArm !in BEFORE_FORWARD
  {
  }

  /** Where an arm stands in the order. */
  function Place(arm: Arm): nat
  {
    match arm
    case ExcludedPath => 0 case Preflight => 1 case ResolveRoute => 2 case UsageRules => 3
    case RouteIps => 4 case RouteCountries => 5 case GlobalGate => 6 case EmergencyMode => 7
    case HttpsArm => 8 case BufferArm => 9 case RouteHeaders => 10 case HeadersArm => 11
    case RouteReferrer => 12 case ReferrerArm => 13 case RouteValidators => 14 case Validators => 15
    case RouteWindow => 16 case WindowArm => 17 case ScanArm => 18 case BanArm => 19
    case GeoArm => 20 case CloudArm => 21 case RouteAgents => 22 case AgentArm => 23
    case CarrierTiers => 24 case TierArm => 25 case ThreatBlock => 26 case CustomRequestArm => 27
    case ForwardArm => 28
  }

  lemma ArmStandsInPlace(i: nat)
    requires i < |BEFORE_FORWARD|
    ensures Place(BEFORE_FORWARD[i]) == i
  {
  }

  /** The arm at a position occurs there alone. */
  lemma ArmsAreDistinct(i: nat, j: nat)
    requires i < j < |BEFORE_FORWARD|
    ensures BEFORE_FORWARD[i] != BEFORE_FORWARD[j]
  {
    hide Place;
    ArmStandsInPlace(i);
    ArmStandsInPlace(j);
  }

  /** The route the call works with. */
  function RouteOf(layer: GuardLayer, parts: Parts): Option<RouteConfig>
  {
    if parts.extensions.route.Some? then parts.extensions.route
    else if layer.routeConfigs.Some? then layer.routeConfigs.value.resolve(parts.verb, parts.uri.path)
    else None
  }

  function Excluded(layer: GuardLayer, parts: Parts): bool
  {
    parts.uri.path in layer.excludePaths
  }

  /** Position `k` of a run that passed the first `n` arms. */
  lemma SplitAt(k: nat, n: nat, env: Env, f: Flow)
    requires k < n <= |BEFORE_FORWARD|
    requires Run(BEFORE_FORWARD[..n], env, f).Continue?
    ensures Run(BEFORE_FORWARD[..k], env, f).Continue?
    ensures Step(BEFORE_FORWARD[k], env, Run(BEFORE_FORWARD[..k], env, f).flow).Continue?
    ensures Run(BEFORE_FORWARD[k + 1..n], env, Step(BEFORE_FORWARD[k], env, Run(BEFORE_FORWARD[..k], env, f).flow).flow)
            == Run(BEFORE_FORWARD[..n], env, f)
  {
    hide Step;
    assert BEFORE_FORWARD[..n] == BEFORE_FORWARD[..k] + [BEFORE_FORWARD[k]] + BEFORE_FORWARD[k + 1..n];
    Through(BEFORE_FORWARD[..k], BEFORE_FORWARD[k], BEFORE_FORWARD[k + 1..n], env, f);
  }

  /** From the resolved route on, the flow carries the route, the facts and the parts of the request. */
  lemma PrefixFlow(k: nat, env: Env, parts: Parts, w: World)
    requires 3 <= k <= |BEFORE_FORWARD|
    requires !Excluded(env.layer, parts)
    requires Run(BEFORE_FORWARD[..k], env, Start(parts, w)).Continue?
    ensures var g := Run(BEFORE_FORWARD[..k], env, Start(parts, w)).flow;
      && g.route == RouteOf(env.layer, parts)
      && g.facts == Extract(parts) && g.facts == FactsSent(parts)
      && g.parts == WithGate(parts, g.parts.extensions.gate)
  {
    hide Step, Run, SameLimits, Extract, FactsSent;
    FactsOf(parts);
    FactsAreRead(parts);
    var p, f := BEFORE_FORWARD[..k], Start(parts, w);
    AroundTheRoute(k);
    Through(p[..2], ResolveRoute, p[3..], env, f);
    RunFrame(p[..2], env, f);
    var f2 := Run(p[..2], env, f).flow;
    ResolvedRoute(env, f2);
    RunFrame(p[3..], env, Step(ResolveRoute, env, f2).flow);
  }

  lemma FactsOf(parts: Parts)
    ensures Extract(parts).path == parts.uri.path && Extract(parts).verb == parts.verb
  {
  }

  /** The route is resolved once, in front of the gate. */
  lemma AroundTheRoute(k: nat)
    requires 3 <= k <= |BEFORE_FORWARD|
    ensures var p := BEFORE_FORWARD[..k];
      && p == p[..2] + [ResolveRoute] + p[3..] && p[..2] == [ExcludedPath, Preflight]
      && ExcludedPath !in p[3..] && ResolveRoute !in p[3..] && ForwardArm !in p[3..]
  {
    var p := BEFORE_FORWARD[..k];
    assert p[2] == ResolveRoute;
    forall j: nat | j < |p[3..]| ensures p[3..][j] != ExcludedPath && p[3..][j] != ResolveRoute && p[3..][j] != ForwardArm {
      ArmStandsInPlace(j + 3);
    }
  }

  lemma ResolvedRoute(env: Env, f: Flow)
    ensures Step(ResolveRoute, env, f) == StepResolveRoute(env, f)
  {
  }

  lemma NotExcluded(env: Env, f: Flow)
    requires f.facts.path !in env.layer.excludePaths
    ensures StepExcludedPath(env, f) == Continue(f)
  {
    hide ForwardCall;
  }

  lemma PreflightPassesUnchanged(env: Env, f: Flow)
    ensures StepPreflight(env, f).Continue? ==> StepPreflight(env, f) == Continue(f)
  {
    hide InsertHeaders, PreflightPairs, FindPair, EqIgnoreCase;
  }

  /** A request that is neither excluded nor a preflight reaches the usage rules with its route and nothing else. */
  lemma FrontFlow(env: Env, parts: Parts, w: World)
    requires !Excluded(env.layer, parts) && StepPreflight(env, Start(parts, w)).Continue?
    ensures Run([ExcludedPath, Preflight, ResolveRoute], env, Start(parts, w))
            == Continue(Start(parts, w).(route := RouteOf(env.layer, parts)))
  {
    hide Step, StepPreflight;
    var f := Start(parts, w);
    assert [ExcludedPath, Preflight, ResolveRoute] == [ExcludedPath] + ([Preflight] + ([ResolveRoute] + []));
    RunFirst(ExcludedPath, [Preflight] + ([ResolveRoute] + []), env, f);
    DispatchEnds(env, f);
    NotExcluded(env, f);
    RunFirst(Preflight, [ResolveRoute] + [], env, f);
    RunFirst(ResolveRoute, [], env, f);
    PreflightPassesUnchanged(env, f);
  }

  // ---- reaching the wrapped service ----------------------------------------------------------

  /** The last arm, if the run gets that far. */
  function ForwardAfter(env: Env, o: Outcome): Outcome
  {
    match o
    case Continue(g) => ForwardCall(env, g, Rebuilt(g.buffered))
    case Done(exit, w) => Done(exit, w)
  }

  /** On a path that is not excluded, only the last arm calls the wrapped service. */
  lemma ReachesThroughForward(env: Env, parts: Parts, w: World)
    requires !Excluded(env.layer, parts)
    ensures Call(env, parts, w) == ForwardAfter(env, Run(BEFORE_FORWARD, env, Start(parts, w)))
    ensures Call(env, parts, w).Done?
    ensures Reaches(Call(env, parts, w).exit) <==> Run(BEFORE_FORWARD, env, Start(parts, w)).Continue?
  {
    hide Step, Run, ForwardCall, RunPasses;
    Positions();
    RunAppend(BEFORE_FORWARD, [ForwardArm], env, Start(parts, w));
    RunFrame(BEFORE_FORWARD, env, Start(parts, w));
    match Run(BEFORE_FORWARD, env, Start(parts, w)) {
      case Continue(g) =>
        LastArm(env, g);
        ForwardReaches(env, g, Rebuilt(g.buffered));
      case Done(_, _) =>
    }
  }

  lemma ForwardReaches(env: Env, f: Flow, body: Octets)
    ensures ForwardCall(env, f, body).Done? && Reaches(ForwardCall(env, f, body).exit)
  {
    hide Pass;
  }

  lemma LastArm(env: Env, f: Flow)
    ensures Run([ForwardArm], env, f) == ForwardCall(env, f, Rebuilt(f.buffered))
  {
    assert [ForwardArm][0] == ForwardArm;
  }

  lemma BufferedAt(env: Env, parts: Parts, w: World)
    requires !Excluded(env.layer, parts)
    requires Run(BEFORE_FORWARD, env, Start(parts, w)).Continue?
    ensures var g := Run(BEFORE_FORWARD, env, Start(parts, w)).flow;
            Buffer(env.frames, EffectiveCap(env.layer, RouteOf(env.layer, parts))) == Ok(g.buffered)
  {
    hide Step;
    Positions();
    var f := Start(parts, w);
    SplitAt(BUFFER_AT, ALL, env, f);
    PrefixFlow(BUFFER_AT, env, parts, w);
    var before := Run(BEFORE_FORWARD[..BUFFER_AT], env, f).flow;
    BufferStep(env, before);
    AfterKeeps(BUFFER_AT, ALL, env, Step(BufferArm, env, before).flow);
  }

  lemma BufferStep(env: Env, f: Flow)
    requires Step(BufferArm, env, f).Continue?
    ensures Buffer(env.frames, EffectiveCap(env.layer, f.route)) == Ok(Step(BufferArm, env, f).flow.buffered)
    ensures Step(BufferArm, env, f).flow == f.(buffered := Step(BufferArm, env, f).flow.buffered)
  {
    hide Finish, BansKept, RuleBansOnly;
    FinishFrame(env, f, Failure());
    FinishFrame(env, f, Oversize());
  }

  /** What the arms from position `k` up to `n` do not write any more. */
  lemma AfterKeeps(k: nat, n: nat, env: Env, f: Flow)
    requires 2 <= k < n <= |BEFORE_FORWARD|
    requires Run(BEFORE_FORWARD[k + 1..n], env, f).Continue?
    ensures var g := Run(BEFORE_FORWARD[k + 1..n], env, f).flow;
      && g.route == f.route && g.facts == f.facts
      && g.parts == WithGate(f.parts, g.parts.extensions.gate)
      && (k >= GATE_AT ==> g.parts == f.parts)
      && (k >= BUFFER_AT ==> g.buffered == f.buffered)
      && (k >= SCAN_AT ==> g.verdict == f.verdict)
  {
    hide Step;
    Positions();
    var rest := BEFORE_FORWARD[k + 1..n];
    forall x | x in rest
      ensures x != ExcludedPath && x != ResolveRoute && x != ForwardArm
      ensures k >= GATE_AT ==> x != GlobalGate
      ensures k >= BUFFER_AT ==> x != BufferArm
      ensures k >= SCAN_AT ==> x != ScanArm
    {
      var j :| 0 <= j < |rest| && rest[j] == x;
      ArmStandsInPlace(j + k + 1);
    }
    RunFrame(rest, env, f);
  }

  /** What the engine says about the whole request. */
  function ScanOf(env: Env, parts: Parts): ScanRun
  {
    env.engine.scan(ScanSurfaces(parts, Frozen(Content(env.frames))), env.layer.exclusions)
  }

  predicate DetectionOff(env: Env, parts: Parts)
  {
    var route := RouteOf(env.layer, parts);
    || Bypassed(route, "penetration")
    || !env.engine.detectionEnabled(
         env.layer.detection, if route.Some? then Some(route.value.enableSuspiciousDetection) else None)
  }

  lemma GateIsNotScanned(parts: Parts, gate: Option<GateDecision>, body: Option<Octets>)
    ensures ScanSurfaces(WithGate(parts, gate), body) == ScanSurfaces(parts, body)
  {
  }

  lemma ScanStep(env: Env, f: Flow)
    requires Step(ScanArm, env, f).Continue?
    ensures var g := Step(ScanArm, env, f).flow;
      && g == f.(verdict := g.verdict)
      && (ScanSkipped(env, f) || Scan(env, f).NoThreat? ==> g.verdict.None?)
      && (!ScanSkipped(env, f) ==> !Scan(env, f).ScanPanic?)
      && (!ScanSkipped(env, f) && Scan(env, f).Threat? ==> g.verdict == Some(Scan(env, f).finding))
  {
    hide Finish, Scan, ScanSkipped, BansKept, RuleBansOnly;
    FinishFrame(env, f, Failure());
  }

  lemma ThreatStep(env: Env, f: Flow)
    requires Step(ThreatBlock, env, f).Continue?
    ensures env.layer.stage.Some?
    ensures f.verdict.None? || env.layer.stage.value.knobs.passiveMode
    ensures Step(ThreatBlock, env, f).flow == f
  {
    hide Block, BansKept, RuleBansOnly;
    BlockFrame(env, f.(world := BlockHook(env.layer, f.world)), 400, ErrorBody(env.layer, 400, BLOCKED_MESSAGE));
  }

  lemma ScreenedAt(env: Env, parts: Parts, w: World)
    requires !Excluded(env.layer, parts)
    requires Run(BEFORE_FORWARD, env, Start(parts, w)).Continue?
    ensures DetectionOff(env, parts)
            || ScanOf(env, parts).NoThreat?
            || (ScanOf(env, parts).Threat? && env.layer.stage.Some? && env.layer.stage.value.knobs.passiveMode)
  {
    hide Step;
    Positions();
    var f := Start(parts, w);
    BufferedAt(env, parts, w);
    BufferedIsContent(env.frames, EffectiveCap(env.layer, RouteOf(env.layer, parts)));
    BufferMeetsSpec(env.frames, EffectiveCap(env.layer, RouteOf(env.layer, parts)));
    SplitAt(SCAN_AT, ALL, env, f);
    SplitAt(THREAT_AT, ALL, env, f);
    PrefixFlow(SCAN_AT, env, parts, w);
    PrefixFlow(THREAT_AT, env, parts, w);
    var scanning := Run(BEFORE_FORWARD[..SCAN_AT], env, f).flow;
    ScanStep(env, scanning);
    AfterKeeps(SCAN_AT, ALL, env, Step(ScanArm, env, scanning).flow);
    var threatened := Run(BEFORE_FORWARD[..THREAT_AT], env, f).flow;
    ThreatStep(env, threatened);
    AfterKeeps(THREAT_AT, ALL, env, Step(ThreatBlock, env, threatened).flow);
    GateIsNotScanned(parts, scanning.parts.extensions.gate, scanning.buffered);
  }

  /** The cap a body has to keep: the route's own limit where it names one a `usize` holds, else the layer's. */
  predicate WithinLimit(layer: GuardLayer, route: Option<RouteConfig>, size: nat)
  {
    match route
    case None => size <= layer.bodyCap
    case Some(r) =>
      match r.maxRequestSize
      case None => size <= layer.bodyCap
      case Some(own) => if own <= 0xFFFF_FFFF_FFFF_FFFF then size <= own else size <= layer.bodyCap
  }

  lemma CapIsTheLimit(layer: GuardLayer, route: Option<RouteConfig>, size: nat)
    ensures WithinLimit(layer, route, size) <==> size <= EffectiveCap(layer, route)
  {
  }

  /**
   Fail-secure forwarding and body preservation. Whenever the wrapped service is
   reached on a path that is not excluded, the whole body was read without error
   within the effective cap, the service got exactly the octets the client sent
   and the client's own request but for the gate decision, and the request was
   clean, or detection is off for it, or a threat was let through by passive mode.
   */
  lemma FailSecure(env: Env, parts: Parts, w: World)
    requires !Excluded(env.layer, parts)
    requires Call(env, parts, w).Done? && Reaches(Call(env, parts, w).exit)
    ensures WithinLimit(env.layer, RouteOf(env.layer, parts), |Content(env.frames)|)
    ensures forall k: nat | k < |env.frames| :: !env.frames[k].Broken?
    ensures exists gate ::
      Call(env, parts, w).world.received
      == w.received + [Request(parts.(extensions := parts.extensions.(gate := gate)), Content(env.frames))]
    ensures DetectionOff(env, parts)
            || ScanOf(env, parts).NoThreat?
            || (ScanOf(env, parts).Threat? && env.layer.stage.Some? && env.layer.stage.value.knobs.passiveMode)
  {
    hide Step, Pass;
    var f := Start(parts, w);
    ReachesThroughForward(env, parts, w);
    BufferedAt(env, parts, w);
    BufferedIsContent(env.frames, EffectiveCap(env.layer, RouteOf(env.layer, parts)));
    CapIsTheLimit(env.layer, RouteOf(env.layer, parts), |Content(env.frames)|);
    ScreenedAt(env, parts, w);
    Positions();
    RunFrame(BEFORE_FORWARD, env, f);
    var g := Run(BEFORE_FORWARD, env, f).flow;
    ForwardedRequest(env, g, Rebuilt(g.buffered));
    assert Call(env, parts, w).world.received
           == w.received + [Request(WithGate(parts, g.parts.extensions.gate), Content(env.frames))];
  }

  lemma ForwardedRequest(env: Env, f: Flow, body: Octets)
    ensures var o := ForwardCall(env, f, body);
      && o.Done? && Reaches(o.exit)
      && o.world.received == f.world.received + [Request(f.parts, body)]
      && SameLimits(f.world, o.world)
      && o.world.journal.passes == f.world.journal.passes + PassCost(env.layer, o.exit)
      && o.world.journal.headerEvents == f.world.journal.headerEvents + EventCost(env.layer, o.exit)
      && o.world.journal.blockHooks == f.world.journal.blockHooks
  {
    hide Pass;
    var w := f.world.(received := f.world.received + [Request(f.parts, body)]);
    if env.inner.answer(w.received).Reply? {
      PassFrame(env, InputFromFacts(f.facts), ForwardedLane, env.inner.answer(w.received).response, w);
    }
  }

  lemma FirstArm(env: Env, parts: Parts, w: World)
    requires Excluded(env.layer, parts)
    ensures Call(env, parts, w) == ForwardCall(env, Start(parts, w), [])
  {
    hide Pass;
    Positions();
    assert ORDER[0] == ExcludedPath;
    ForwardedRequest(env, Start(parts, w), []);
    assert Step(ExcludedPath, env, Start(parts, w)) == ForwardCall(env, Start(parts, w), []);
  }

  /** An excluded path is always forwarded, with the request untouched and an empty body. */
  lemma ExcludedPathForwardsEmptyBody(env: Env, parts: Parts, w: World)
    requires Excluded(env.layer, parts)
    ensures Call(env, parts, w).Done? && Reaches(Call(env, parts, w).exit)
    ensures Call(env, parts, w).world.received == w.received + [Request(parts, [])]
    ensures SameLimits(w, Call(env, parts, w).world)
  {
    hide Step, Pass;
    FirstArm(env, parts, w);
    ForwardedRequest(env, Start(parts, w), []);
  }

  // ---- accounting ----------------------------------------------------------------------------

  /**
   Response-pass accounting. With a processor installed the exit alone fixes the
   number of response passes, and the header event is sent at most once, for a
   forwarded response only. Without a processor there is neither.
   */
  lemma PassesFollowTheExit(env: Env, parts: Parts, w: World)
    ensures Call(env, parts, w).Done?
    ensures var o := Call(env, parts, w);
      && o.world.journal.passes == w.journal.passes + PassCost(env.layer, o.exit)
      && o.world.journal.headerEvents == w.journal.headerEvents + EventCost(env.layer, o.exit)
      && |o.world.received| == |w.received| + (if Reaches(o.exit) then 1 else 0)
  {
    hide Step, Pass;
    var f := Start(parts, w);
    if Excluded(env.layer, parts) {
      FirstArm(env, parts, w);
      ForwardedRequest(env, f, []);
    } else {
      Positions();
      ReachesThroughForward(env, parts, w);
      RunFrame(BEFORE_FORWARD, env, f);
      match Run(BEFORE_FORWARD, env, f) {
        case Continue(g) => ForwardedRequest(env, g, Rebuilt(g.buffered));
        case Done(_, _) =>
      }
    }
  }
}
