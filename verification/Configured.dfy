/**
 From the unified configuration to the answer: what a visitor of a service built by
 `from_security_config` meets at the address gate.
 */
module Configured {
  import opened Admission
  import opened BodyBuffer
  import opened Engine
  import opened ErrorBodies
  import opened Forwarding
  import opened Frames
  import opened Http
  import opened Layer
  import opened Noninterference
  import opened Octets
  import opened Pipeline
  import opened Questions
  import opened Runs
  import opened Wrappers

  /**
   The gate constructor does what it documents: it accepts every list, denies the
   addresses of the blacklist and, under a whitelist, those on neither the whitelist
   nor the exempt list, and marks the others by the list they are on.
   */
  ghost predicate GatesAsDocumented(k: Constructors)
  {
    forall white: seq<string>, black: seq<string>, exempt: seq<string> :: GateFor(k, white, black, exempt)
  }

  ghost predicate GateFor(k: Constructors, white: seq<string>, black: seq<string>, exempt: seq<string>)
  {
    var gate := k.ipGate(white, black, exempt);
    gate.Some? && forall ip: Ip ::
      match gate.value.evaluate(ip)
      case Denied(_) => Barred(white, black, exempt, ip)
      case Allowed(decision) =>
        !Barred(white, black, exempt, ip) && decision == GateDecision(isWhitelisted := ip in white, isExempt := ip in exempt)
  }

  predicate Barred(white: seq<string>, black: seq<string>, exempt: seq<string>, ip: Ip)
  {
    ip in black || (white != [] && ip !in white && ip !in exempt)
  }

  /** The configuration keeps this address out. */
  predicate KeepsOut(c: SecurityConfig, ip: Ip)
  {
    ip in c.blacklist || (c.whitelist.Some? && c.whitelist.value != [] && ip !in c.whitelist.value && ip !in c.exemptIps)
  }

  /** The configuration knows this address. */
  predicate Lists(c: SecurityConfig)
  {
    c.whitelist.Some? || c.blacklist != [] || c.exemptIps != []
  }

  lemma ConfiguredVerdict(k: Constructors, c: SecurityConfig, l: GuardLayer, ip: Ip)
    requires GatesAsDocumented(k) && AccessConfigured(k, c, l) && Lists(c)
    ensures l.ipGate.Some?
    ensures match l.ipGate.value.evaluate(ip)
            case Denied(_) => KeepsOut(c, ip)
            case Allowed(decision) =>
              && !KeepsOut(c, ip)
              && decision == GateDecision(
                   isWhitelisted := c.whitelist.Some? && ip in c.whitelist.value, isExempt := ip in c.exemptIps)
  {
    var white := match c.whitelist { case Some(list) => list case None => [] };
    assert GateFor(k, white, c.blacklist, c.exemptIps);
  }

  /** A request without a carrier gets to the gate, unless its path is excluded or it is a preflight. */
  lemma GetsToTheGate(env: Env, parts: Parts, w: World)
    requires env.layer.routeConfigs.None? && parts.extensions.route.None? && Fresh(env, parts, w)
    ensures Passes(GATE_AT, env, parts, w) && RouteOf(env.layer, parts) == None
  {
    hide Fresh, Lets, Passes;
    forall k: nat | 3 <= k < GATE_AT ensures Lets(BEFORE_FORWARD[k], env, parts, w) {
      LetsWithoutRoute(BEFORE_FORWARD[k], env, parts, w);
    }
    PassesExactly(GATE_AT, env, parts, w);
  }

  lemma LetsWithoutRoute(arm: Arm, env: Env, parts: Parts, w: World)
    requires RouteOf(env.layer, parts).None? && arm in {UsageRules, RouteIps, RouteCountries}
    ensures Lets(arm, env, parts, w)
  {
  }

  lemma DeniedCall(env: Env, parts: Parts, w: World)
    requires Passes(GATE_AT, env, parts, w) && !GateOpen(env, parts)
    ensures Call(env, parts, w).Done? && Call(env, parts, w).exit.GateDenied?
    ensures BodyText(Call(env, parts, w).exit.response) == BodyFor(env.layer.customErrors, 403, "Forbidden")
  {
    hide Call, GateOpen, Passes, FlowAt;
    CustomBodiesExactly(env, env.layer.customErrors, parts, w);
  }

  lemma ConfiguredGate(env: Env, parts: Parts, ip: Ip)
    requires RouteOf(env.layer, parts).None? && parts.extensions.clientIp == Some(ip) && env.layer.ipGate.Some?
    ensures match env.layer.ipGate.value.evaluate(ip)
            case Denied(_) => (GateOpen(env, parts) <==> env.layer.passiveMode)
            case Allowed(decision) => GateOpen(env, parts) && GateLeft(env, parts) == Some(decision)
  {
  }

  /**
   A service built from a configuration that lists addresses. A visitor the lists keep
   out is denied, with the configured body; every other visitor who is forwarded
   arrives marked by the lists he is on.
   */
  lemma ListsDecide(k: Constructors, c: SecurityConfig, env: Env, parts: Parts, w: World, ip: Ip)
    requires GatesAsDocumented(k) && Lists(c)
    requires Configures(k, c, env.layer.(stage := None))
    requires Fresh(env, parts, w) && parts.extensions.route.None? && parts.extensions.clientIp == Some(ip)
    ensures Call(env, parts, w).Done?
    ensures var o := Call(env, parts, w);
      if KeepsOut(c, ip) then
        c.passiveMode || (o.exit.GateDenied? && BodyText(o.exit.response) == BodyFor(c.customErrors, 403, "Forbidden"))
      else
        Reaches(o.exit) ==>
          o.world.received == w.received + [Request(
            parts.(extensions := parts.extensions.(gate := Some(GateDecision(
              isWhitelisted := c.whitelist.Some? && ip in c.whitelist.value, isExempt := ip in c.exemptIps)))),
            Content(env.frames))]
  {
    hide Call, GatesAsDocumented, AccessConfigured, StagesConfigured, ProcessorConfigured, Passes, GateOpen, GateLeft,
      KeepsOut, Lists, StepPreflight;
    CallAnswers(env, parts, w);
    ConfiguredVerdict(k, c, env.layer.(stage := None), ip);
    GetsToTheGate(env, parts, w);
    ConfiguredGate(env, parts, ip);
    if KeepsOut(c, ip) {
      if !c.passiveMode { DeniedCall(env, parts, w); }
    } else if Reaches(Call(env, parts, w).exit) {
      ForwardedThroughTheGate(env, parts, w);
    }
  }

  /** The same of the layer the configuration really builds. */
  method BuildAndDecide(k: Constructors, c: SecurityConfig) returns (r: Result<GuardLayer, ConfigError>)
    ensures r.Ok? <==> Refusal(k, c).None?
    ensures r.Err? ==> Refusal(k, c) == Some(r.error)
    ensures r.Ok? ==> r.value.stage.Some? && Configures(k, c, r.value.(stage := None))
  {
    hide AccessConfigured, StagesConfigured, BasicsConfigured, HooksConfigured, ProcessorConfigured;
    var built := FromSecurityConfig(k, c);
    if built.Err? {
      return built;
    }
    var layered := Layered(built.value);
    assert layered.(stage := None) == built.value;
    r := Ok(layered);
  }

  // ---- a layer nothing is installed on ----------------------------------------------------------------

  /** What the scan of the whole request says, if detection is on by the engine's switches. */
  predicate CleanOrLetPass(env: Env, parts: Parts, stage: RateLimitStage)
  {
    env.engine.detectionEnabled(true, None) ==>
      ScanOf(env, parts).NoThreat? || (ScanOf(env, parts).Threat? && stage.knobs.passiveMode)
  }

  lemma NewLayerAccepts(env: Env, parts: Parts, w: World, cap: nat, stage: RateLimitStage)
    requires env.layer == New(cap).(stage := Some(stage)) && parts.extensions.route.None?
    ensures Acceptable(env, parts, w) <==>
      && (forall k: nat | k < |env.frames| :: !env.frames[k].Broken?) && |Content(env.frames)| <= cap
      && CleanOrLetPass(env, parts, stage)
  {
    hide ScanOf, Content;
  }

  lemma NewLayerIsQuiet(arm: Arm, env: Env, parts: Parts, w: World, cap: nat, stage: RateLimitStage)
    requires env.layer == New(cap).(stage := Some(stage)) && arm != BanArm && arm != TierArm
    ensures Quiet(arm, env, parts, w)
  {
    hide Bypassed, RouteOf, ScanOf, Content, TableAsked, TableDecided, CountriesTakenOver;
  }

  /**
   A new layer detects and buffers and does nothing else: over a service of it, a
   request without a carrier is forwarded if and only if its body arrives within the
   cap, the scan lets it pass, and neither a ban nor a full window stops it.
   */
  lemma NewLayerForwardsExactly(env: Env, parts: Parts, w: World, cap: nat, stage: RateLimitStage)
    requires env.layer == New(cap).(stage := Some(stage)) && parts.extensions.route.None?
    ensures Call(env, parts, w).Done?
    ensures Reaches(Call(env, parts, w).exit) <==>
      && (forall k: nat | k < |env.frames| :: !env.frames[k].Broken?) && |Content(env.frames)| <= cap
      && CleanOrLetPass(env, parts, stage)
      && Quiet(BanArm, env, parts, w) && Quiet(TierArm, env, parts, w)
  {
    hide Call, Acceptable, Quiet, Content, CleanOrLetPass;
    NewLayerIsFresh(env, parts, w, cap, stage);
    ForwardedExactly(env, parts, w);
    NewLayerAccepts(env, parts, w, cap, stage);
    forall arm: Arm | arm != BanArm && arm != TierArm ensures Quiet(arm, env, parts, w) {
      NewLayerIsQuiet(arm, env, parts, w, cap, stage);
    }
  }

  lemma NewLayerIsFresh(env: Env, parts: Parts, w: World, cap: nat, stage: RateLimitStage)
    requires env.layer == New(cap).(stage := Some(stage))
    ensures Fresh(env, parts, w)
  {
  }
}
