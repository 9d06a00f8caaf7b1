/**
 What the client gets when an arm answers, from the whole call: status, text and
 headers of the fixed answers, redirects, stage answers and preflights. Each theorem
 starts from a request that gets to the arm, which `Forwarding.PassesExactly` turns
 into a condition on the request.
 */
module Answers {
  import opened Admission
  import opened BodyBuffer
  import opened Engine
  import opened ErrorBodies
  import opened Forwarding
  import opened Frames
  import opened Http
  import opened Layer
  import opened Octets
  import opened Pipeline
  import opened Questions
  import opened Readings
  import opened Runs
  import opened Wrappers

  const PLAIN: map<string, FieldValue> := map["content-type" := Text("text/plain; charset=utf-8")]

  /**
   The call is answered with this response: its body always, and without a response
   processor the response as it stands, in these stores.
   */
  ghost predicate Answered(env: Env, o: Outcome, response: Response, v: World)
  {
    && o.Done? && o.exit.Blocked? && o.exit.response.body == response.body
    && (env.layer.processor.None? ==> o == Done(Blocked(response), v))
  }

  lemma FinishAnswers(env: Env, f: Flow, response: Response)
    ensures Answered(env, Finish(env, f, response), response, f.world)
  {
    hide BansKept, RuleBansOnly, SameLimits, Processed, Modified, InsertHeaders;
    PassFrame(env, InputFromParts(f.parts), GeneratedLane, response, f.world);
  }

  /** A status is one from 100 to 999; any other makes the answer panic before it is sent. */
  lemma BlockAnswers(env: Env, f: Flow, status: U16, body: string)
    ensures var o := Block(env, f, status, body);
      if 100 <= status <= 999 then Answered(env, o, Response(status, PLAIN, Generated(body)), f.world)
      else o == Done(Panicked, f.world)
  {
    hide Finish;
    if ValidStatus(status) { FinishAnswers(env, f, PlainText(status, body)); }
  }

  // ---- the body --------------------------------------------------------------------------------

  /** 413 for a body over its limit, 500 for one that breaks off. */
  function BodyRefusal(failure: BufferFailure): Response
  {
    match failure
    case TooLarge => Response(413, PLAIN, Generated("Payload too large"))
    case ReadError => Response(500, PLAIN, Generated("Security check failed"))
  }

  lemma BufferAnswers(env: Env, f: Flow, failure: BufferFailure)
    requires Buffer(env.frames, EffectiveCap(env.layer, f.route)) == Err(failure)
    ensures Answered(env, Step(BufferArm, env, f), BodyRefusal(failure), f.world)
  {
    hide Finish, Buffer, EffectiveCap;
    FinishAnswers(env, f, Oversize());
    FinishAnswers(env, f, Failure());
  }

  /** An answer of the arm at a position is the answer of the call. */
  lemma AnswersTheCall(n: nat, arm: Arm, env: Env, parts: Parts, w: World, response: Response, v: World)
    requires n < ALL && Passes(n, env, parts, w) && BEFORE_FORWARD[n] == arm
    requires Answered(env, Step(arm, env, FlowAt(n, env, parts, w)), response, v)
    ensures Answered(env, Call(env, parts, w), response, v)
  {
    hide Step, Call, Run, Answered, Passes, FlowAt;
    AnsweredIsDone(env, Step(arm, env, FlowAt(n, env, parts, w)), response, v);
    EndsAt(n, env, parts, w);
  }

  lemma AnsweredIsDone(env: Env, o: Outcome, response: Response, v: World)
    requires Answered(env, o, response, v)
    ensures o.Done?
  {
  }

  lemma RefusedByTheBuffer(env: Env, parts: Parts, f: Flow, cap: nat, failure: BufferFailure)
    requires f.route == RouteOf(env.layer, parts)
    requires forall size: nat :: WithinLimit(env.layer, RouteOf(env.layer, parts), size) <==> size <= cap
    requires IsOutcome(env.frames, cap, Err(failure))
    ensures Answered(env, Step(BufferArm, env, f), BodyRefusal(failure), f.world)
  {
    hide Step, WithinLimit, EffectiveCap, RouteOf, Answered, IsOutcome, Buffer, BodyRefusal;
    LimitIsTheCap(env, parts, cap);
    BufferMeetsSpec(env.frames, cap);
    OutcomeIsUnique(env.frames, cap, Buffer(env.frames, cap), Err(failure));
    BufferAnswers(env, f, failure);
  }

  /**
   A body that crosses its limit is answered 413, one that breaks off first 500, each
   with its fixed text. The limit is the route's own, if it names one a `usize`
   holds, and the layer's otherwise.
   */
  lemma RefusedBodyIsAnswered(env: Env, parts: Parts, w: World, cap: nat, failure: BufferFailure)
    requires Passes(BUFFER_AT, env, parts, w)
    requires forall size: nat :: WithinLimit(env.layer, RouteOf(env.layer, parts), size) <==> size <= cap
    requires IsOutcome(env.frames, cap, Err(failure))
    ensures Answered(env, Call(env, parts, w), BodyRefusal(failure), FlowAt(BUFFER_AT, env, parts, w).world)
  {
    hide Step, Call, WithinLimit, RouteOf, Answered, IsOutcome, BodyRefusal, Passes, FlowAt;
    AtPosition(BUFFER_AT, env, parts, w);
    RefusedByTheBuffer(env, parts, FlowAt(BUFFER_AT, env, parts, w), cap, failure);
    assert BEFORE_FORWARD[BUFFER_AT] == BufferArm;
    AnswersTheCall(BUFFER_AT, BufferArm, env, parts, w, BodyRefusal(failure), FlowAt(BUFFER_AT, env, parts, w).world);
  }

  lemma LimitIsTheCap(env: Env, parts: Parts, cap: nat)
    requires forall size: nat :: WithinLimit(env.layer, RouteOf(env.layer, parts), size) <==> size <= cap
    ensures EffectiveCap(env.layer, RouteOf(env.layer, parts)) == cap
  {
    hide WithinLimit, EffectiveCap, RouteOf;
    var effective := EffectiveCap(env.layer, RouteOf(env.layer, parts));
    CapIsTheLimit(env.layer, RouteOf(env.layer, parts), effective);
    CapIsTheLimit(env.layer, RouteOf(env.layer, parts), cap);
  }

  /** What the flow holds at a position. */
  lemma AtPosition(n: nat, env: Env, parts: Parts, w: World)
    requires 3 <= n < ALL && Passes(n, env, parts, w)
    ensures var f := FlowAt(n, env, parts, w);
      && f.route == RouteOf(env.layer, parts) && f.facts == FactsSent(parts)
      && f.parts == WithGate(parts, f.parts.extensions.gate)
  {
    hide Step, Run, RouteOf, FactsSent, Http.Extract, WithGate;
    PrefixFlow(n, env, parts, w);
  }

  // ---- the guard's own answers -----------------------------------------------------------------------

  function Plain(status: U16, text: string): Response
  {
    Response(status, PLAIN, Generated(text))
  }

  /** The https form of the request's own address. */
  ghost function SecureAddress(parts: Parts): Url
  {
    Url(host := match FactsSent(parts).host { case Some(host) => host case None => "" },
        path := parts.uri.path, query := parts.uri.query)
  }

  function Moved(status: U16, target: Url): Response
  {
    Response(status, PLAIN["location" := Target(target)], Generated(""))
  }

  /** The answer of an arm whose requirement the request does not meet; the text is fixed but for a threat. */
  ghost function OwnAnswer(arm: Arm, env: Env, parts: Parts, r: RouteConfig): Response
  {
    match arm
    case UsageRules => Plain(403, "IP has been banned")
    case RouteIps =>
      if env.engine.parseRouteIps(r.ipWhitelist, r.ipBlacklist).None? then Plain(500, "Security check failed")
      else Plain(403, "Forbidden")
    case RouteCountries => Plain(403, "Forbidden")
    case HttpsArm => Moved(301, SecureAddress(parts))
    case RouteReferrer =>
      if r.requireReferrer.Some?
         && env.engine.referrer(HeaderOf(parts.headers, "referer"), r.requireReferrer.value).ReferrerMissing?
      then Plain(403, "Referrer required") else Plain(403, "Invalid referrer")
    case RouteWindow => Plain(403, "Access not allowed at this time")
    case RouteAgents =>
      if env.engine.userAgentFilter(r.blockedUserAgents).None? then Plain(500, "Security check failed")
      else Plain(403, "User-Agent not allowed")
    case ThreatBlock => Plain(400, BodyFor(env.layer.customErrors, 400, "Suspicious activity detected"))
    case _ => Plain(500, "Security check failed")
  }

  lemma UsageAnswers(env: Env, f: Flow)
    requires Step(UsageRules, env, f).Done?
    ensures Answered(env, Step(UsageRules, env, f), Plain(403, "IP has been banned"), WorldBehindUsage(env, f))
  {
    hide Block, UsagePass;
    BlockAnswers(env, f.(world := WorldBehindUsage(env, f)), 403, "IP has been banned");
  }

  /** The usage rules have written their stores by the time they ban. */
  function WorldBehindUsage(env: Env, f: Flow): World
  {
    if f.route.None? || env.layer.processor.None? then f.world
    else UsagePass(env, f, env.layer.processor.value, f.route.value.behaviorRules).0
  }

  lemma AddressAnswers(env: Env, parts: Parts, f: Flow, r: RouteConfig)
    requires f.route == Some(r) && Step(RouteIps, env, f).Done?
    ensures Answered(env, Step(RouteIps, env, f), OwnAnswer(RouteIps, env, parts, r), f.world)
  {
    hide Block, Finish, Bypassed;
    FinishAnswers(env, f, Failure());
    BlockAnswers(env, f, 403, "Forbidden");
  }

  lemma CountryAnswers(env: Env, f: Flow)
    requires Step(RouteCountries, env, f).Done?
    ensures Answered(env, Step(RouteCountries, env, f), Plain(403, "Forbidden"), f.world)
  {
    hide Block, Bypassed;
    BlockAnswers(env, f, 403, "Forbidden");
  }

  lemma SchemeAnswers(env: Env, parts: Parts, f: Flow)
    requires env.layer.https.None? && f.facts == FactsSent(parts) && Step(HttpsArm, env, f).Done?
    ensures Answered(env, Step(HttpsArm, env, f), Moved(301, SecureAddress(parts)), f.world)
  {
    hide Finish;
    FinishAnswers(env, f, RedirectAnswer(Redirect(301, HttpsUrl(f.facts))));
  }

  lemma ReferrerAnswers(env: Env, parts: Parts, f: Flow, r: RouteConfig)
    requires f.route == Some(r) && f.facts == FactsSent(parts) && Step(RouteReferrer, env, f).Done?
    ensures Answered(env, Step(RouteReferrer, env, f), OwnAnswer(RouteReferrer, env, parts, r), f.world)
  {
    hide Block, HeaderOf;
    BlockAnswers(env, f, 403, "Referrer required");
    BlockAnswers(env, f, 403, "Invalid referrer");
  }

  lemma WindowAnswers(env: Env, f: Flow)
    requires Step(RouteWindow, env, f).Done?
    ensures Answered(env, Step(RouteWindow, env, f), Plain(403, "Access not allowed at this time"), f.world)
  {
    hide Block;
    BlockAnswers(env, f, 403, "Access not allowed at this time");
  }

  lemma AgentAnswers(env: Env, parts: Parts, f: Flow, r: RouteConfig)
    requires f.route == Some(r) && Step(RouteAgents, env, f).Done?
    ensures Answered(env, Step(RouteAgents, env, f), OwnAnswer(RouteAgents, env, parts, r), f.world)
  {
    hide Block, Finish;
    FinishAnswers(env, f, Failure());
    BlockAnswers(env, f, 403, "User-Agent not allowed");
  }

  lemma ScanAnswers(env: Env, f: Flow)
    requires Step(ScanArm, env, f).Done?
    ensures Answered(env, Step(ScanArm, env, f), Plain(500, "Security check failed"), f.world)
  {
    hide Finish, Scan, ScanSkipped;
    FinishAnswers(env, f, Failure());
  }

  lemma TierViewAnswers(env: Env, f: Flow)
    requires Step(CarrierTiers, env, f).Done?
    ensures Answered(env, Step(CarrierTiers, env, f), Plain(500, "Security check failed"), f.world)
  {
    hide Finish;
    FinishAnswers(env, f, Failure());
  }

  lemma ProvidersAnswer(env: Env, f: Flow)
    requires f.route.Some? && !SelectorsParse(env.engine, f.route.value)
    ensures Answered(env, Step(CloudArm, env, f), Plain(500, "Security check failed"), f.world)
  {
    hide Finish;
    FinishAnswers(env, f, Failure());
  }

  lemma ThreatAnswers(env: Env, f: Flow)
    requires env.layer.stage.Some? && Step(ThreatBlock, env, f).Done?
    ensures Answered(env, Step(ThreatBlock, env, f),
                     Plain(400, BodyFor(env.layer.customErrors, 400, "Suspicious activity detected")),
                     BlockHook(env.layer, f.world))
  {
    hide Block;
    BlockAnswers(env, f.(world := BlockHook(env.layer, f.world)), 400,
                 BodyFor(env.layer.customErrors, 400, "Suspicious activity detected"));
  }

  /** The arms that answer out of their own, without a stage or a check of the application. */
  predicate AnswersItself(arm: Arm)
  {
    arm in {UsageRules, RouteIps, RouteCountries, HttpsArm, RouteReferrer, RouteWindow, ScanArm, CloudArm, RouteAgents,
            CarrierTiers, ThreatBlock}
  }

  /** What the arm has written by the time it answers. */
  function Left(arm: Arm, env: Env, f: Flow): World
  {
    match arm
    case UsageRules => WorldBehindUsage(env, f)
    case ThreatBlock => BlockHook(env.layer, f.world)
    case _ => f.world
  }

  lemma UnmetArmAnswers(arm: Arm, env: Env, parts: Parts, w: World, r: RouteConfig, f: Flow)
    requires AnswersItself(arm) && arm != ThreatBlock && arm != CloudArm && !Meets(arm, env, parts, w)
    requires f.route == RouteOf(env.layer, parts) && f.facts == FactsSent(parts) && (f.route.Some? ==> f.route == Some(r))
    requires Step(arm, env, f).Done?
    ensures Answered(env, Step(arm, env, f), OwnAnswer(arm, env, parts, r), Left(arm, env, f))
  {
    hide Step, RouteOf, FactsSent, Answered, AddressAllowed, CountryAllowed, SchemeAllowed, ReferrerMet, WindowMet,
      AgentAllowed, UsageBans, ScanEnds, HeaderOf, WorldBehindUsage;
    match arm {
      case UsageRules => UsageAnswers(env, f);
      case RouteIps => AddressAnswers(env, parts, f, r);
      case RouteCountries => CountryAnswers(env, f);
      case HttpsArm =>
        SecureNeedsNoStage(env, parts, r);
        SchemeAnswers(env, parts, f);
      case RouteReferrer => ReferrerAnswers(env, parts, f, r);
      case RouteWindow => WindowAnswers(env, f);
      case ScanArm => ScanAnswers(env, f);
      case RouteAgents => AgentAnswers(env, parts, f, r);
      case CarrierTiers => TierViewAnswers(env, f);
    }
  }

  lemma SecureNeedsNoStage(env: Env, parts: Parts, r: RouteConfig)
    requires !SchemeAllowed(env.layer, r, FactsSent(parts).scheme)
    ensures env.layer.https.None?
  {
  }

  lemma UnmetStepAnswers(n: nat, arm: Arm, env: Env, parts: Parts, w: World, r: RouteConfig)
    requires 3 <= n < ALL && Passes(n, env, parts, w) && BEFORE_FORWARD[n] == arm && AnswersItself(arm)
    requires RouteOf(env.layer, parts).Some? ==> RouteOf(env.layer, parts) == Some(r)
    requires !Meets(arm, env, parts, w)
    ensures var f := FlowAt(n, env, parts, w);
      Answered(env, Step(arm, env, f), OwnAnswer(arm, env, parts, r), Left(arm, env, f))
  {
    hide Step, Call, Answered, Meets, Quiet, OwnAnswer, Left, RouteOf, FactsSent, Passes, FlowAt;
    AtPosition(n, env, parts, w);
    ArmExactly(n, env, parts, w);
    var f := FlowAt(n, env, parts, w);
    if arm == ThreatBlock {
      ThreatStepAnswers(n, env, parts, w, r);
    } else if arm == CloudArm {
      CloudStepAnswers(env, parts, w, r, f);
    } else {
      UnmetArmAnswers(arm, env, parts, w, r, f);
    }
  }

  lemma CloudStepAnswers(env: Env, parts: Parts, w: World, r: RouteConfig, f: Flow)
    requires f.route == RouteOf(env.layer, parts) && !Meets(CloudArm, env, parts, w)
    ensures Answered(env, Step(CloudArm, env, f), OwnAnswer(CloudArm, env, parts, r), Left(CloudArm, env, f))
  {
    hide Step, Answered, RouteOf, FactsSent, SelectorsParse;
    ProvidersAnswer(env, f);
  }

  lemma ThreatStepAnswers(n: nat, env: Env, parts: Parts, w: World, r: RouteConfig)
    requires n < ALL && Passes(n, env, parts, w) && BEFORE_FORWARD[n] == ThreatBlock
    requires Step(ThreatBlock, env, FlowAt(n, env, parts, w)).Done?
    ensures var f := FlowAt(n, env, parts, w);
      Answered(env, Step(ThreatBlock, env, f), OwnAnswer(ThreatBlock, env, parts, r), Left(ThreatBlock, env, f))
  {
    hide Step, Answered, Passes, FlowAt, BodyFor, FindingOf;
    ArmStandsInPlace(n);
    ThreatStandsAsSaid(env, parts, w);
    ThreatAnswers(env, FlowAt(n, env, parts, w));
  }

  /**
   What the client gets where the request does not meet what an arm asks: the answer
   of the first such arm, with its fixed status and text. A threat alone takes a
   custom body; the https arm redirects to the request's own address.
   */
  lemma UnmetIsAnswered(n: nat, arm: Arm, env: Env, parts: Parts, w: World, r: RouteConfig)
    requires 3 <= n < ALL && Passes(n, env, parts, w) && BEFORE_FORWARD[n] == arm && AnswersItself(arm)
    requires RouteOf(env.layer, parts).Some? ==> RouteOf(env.layer, parts) == Some(r)
    requires !Meets(arm, env, parts, w)
    ensures Answered(env, Call(env, parts, w), OwnAnswer(arm, env, parts, r), Left(arm, env, FlowAt(n, env, parts, w)))
  {
    hide Step, Call, Answered, Meets, OwnAnswer, Left, RouteOf, Passes, FlowAt;
    UnmetStepAnswers(n, arm, env, parts, w, r);
    AnswersTheCall(n, arm, env, parts, w, OwnAnswer(arm, env, parts, r), Left(arm, env, FlowAt(n, env, parts, w)));
  }

  // ---- answers of stages and checks ------------------------------------------------------------------

  /** A redirect of the https stage, whatever status and target it names. */
  lemma StageRedirects(env: Env, f: Flow, r: Redirect)
    requires env.layer.https.Some? && ValidStatus(r.status)
    requires env.layer.https.value.decide(f.world.stages.https, HttpsQuestion(f.facts, f.route)).1 == Some(r)
    ensures var s := env.layer.https.value.decide(f.world.stages.https, HttpsQuestion(f.facts, f.route)).0;
      Answered(env, Step(HttpsArm, env, f), Moved(r.status, r.location),
               f.world.(stages := f.world.stages.(https := s)))
  {
    hide Finish, HttpsQuestion;
    var s := env.layer.https.value.decide(f.world.stages.https, HttpsQuestion(f.facts, f.route)).0;
    FinishAnswers(env, f.(world := f.world.(stages := f.world.stages.(https := s))), RedirectAnswer(r));
  }

  /** An answer of the rate-limit stage: its custom body if it has one, and the delay if it names one. */
  function Limited(a: StageResponse): Response
  {
    var text := match a.customBody { case Some(custom) => custom case None => a.body };
    Response(a.status, match a.retryAfter { case Some(n) => PLAIN["retry-after" := Seconds(n)] case None => PLAIN },
             Generated(text))
  }

  lemma BanStageAnswers(env: Env, f: Flow, stage: RateLimitStage, a: StageResponse)
    requires env.layer.stage == Some(stage) && !Bypassed(f.route, "ip_ban")
    requires env.engine.decideBans(stage.knobs, BansOf(f.world, stage.manager), env.now, f.facts.ip).1 == Some(a)
    ensures Answered(env, Step(BanArm, env, f), Limited(a), BanDecision(env, f, stage).0)
  {
    hide Finish, Bypassed;
    FinishAnswers(env, f.(world := BanDecision(env, f, stage).0), StageAnswer(a));
  }

  lemma TierStageAnswers(env: Env, f: Flow, stage: RateLimitStage, a: StageResponse)
    requires env.layer.stage == Some(stage) && !Bypassed(f.route, "rate_limit")
    requires TierDecision(env, f, stage).1 == Some(a)
    ensures Answered(env, Step(TierArm, env, f), Limited(a), TierDecision(env, f, stage).0)
  {
    hide Finish, Bypassed, TierDecision;
    FinishAnswers(env, f.(world := TierDecision(env, f, stage).0), StageAnswer(a));
  }

  /**
   A running ban and a full window answer a request that gets to them with the stage's
   own answer.
   */
  lemma LimitsAnswerTheCall(env: Env, parts: Parts, w: World, stage: RateLimitStage, a: StageResponse)
    requires env.layer.stage == Some(stage)
    ensures Passes(BANS_AT, env, parts, w) && !Bypassed(RouteOf(env.layer, parts), "ip_ban")
            && env.engine.decideBans(
                 stage.knobs, TableAsked(env, parts, w, stage), env.now, parts.extensions.clientIp).1 == Some(a) ==>
              Answered(env, Call(env, parts, w), Limited(a), BanDecision(env, FlowAt(BANS_AT, env, parts, w), stage).0)
    ensures Passes(TIERS_AT, env, parts, w) && !Bypassed(RouteOf(env.layer, parts), "rate_limit")
            && TierDecision(env, FlowAt(TIERS_AT, env, parts, w), stage).1 == Some(a) ==>
              Answered(env, Call(env, parts, w), Limited(a), TierDecision(env, FlowAt(TIERS_AT, env, parts, w), stage).0)
  {
    hide Step, Call, Answered, Limited, Passes, FlowAt, Bypassed, RouteOf, TableAsked, BanDecision, TierDecision, BansOf,
      FactsSent;
    assert BEFORE_FORWARD[BANS_AT] == BanArm && BEFORE_FORWARD[TIERS_AT] == TierArm;
    if Passes(BANS_AT, env, parts, w) && !Bypassed(RouteOf(env.layer, parts), "ip_ban")
       && env.engine.decideBans(
            stage.knobs, TableAsked(env, parts, w, stage), env.now, parts.extensions.clientIp).1 == Some(a) {
      var f := FlowAt(BANS_AT, env, parts, w);
      AtPosition(BANS_AT, env, parts, w);
      ClientOf(parts);
      TableAtBans(env, parts, w, stage);
      BanStageAnswers(env, f, stage, a);
      AnswersTheCall(BANS_AT, BanArm, env, parts, w, Limited(a), BanDecision(env, f, stage).0);
    }
    if Passes(TIERS_AT, env, parts, w) && !Bypassed(RouteOf(env.layer, parts), "rate_limit")
       && TierDecision(env, FlowAt(TIERS_AT, env, parts, w), stage).1 == Some(a) {
      var f := FlowAt(TIERS_AT, env, parts, w);
      AtPosition(TIERS_AT, env, parts, w);
      TierStageAnswers(env, f, stage, a);
      AnswersTheCall(TIERS_AT, TierArm, env, parts, w, Limited(a), TierDecision(env, f, stage).0);
    }
  }

  lemma CheckStepAnswers(env: Env, f: Flow, r: RouteConfig, a: CustomAnswer)
    requires f.route == Some(r) && r.customValidators != []
    requires env.engine.validators(r.customValidators, f.facts, Utf8View(env.engine, f.buffered)) == Some(a)
    ensures var status := match a.status { case Some(n) => n case None => 200 };
      var o := Step(RouteValidators, env, f);
      if 100 <= status <= 999 then Answered(env, o, Plain(status, ""), f.world) else o == Done(Panicked, f.world)
  {
    hide Block, Utf8View;
    BlockAnswers(env, f, CustomStatus(a), "");
  }

  /** The body the checks are shown is the client's. */
  lemma BodyIsSeen(e: Engine, content: Octets)
    ensures Utf8View(e, Frozen(content)) == BodySeen(e, content)
  {
  }

  /**
   A check of the application that refuses answers with the status it names and an
   empty text, with 200 if it names none; a status that does not exist panics.
   */
  lemma RefusingCheckIsAnswered(env: Env, parts: Parts, w: World, r: RouteConfig, a: CustomAnswer)
    requires Passes(14, env, parts, w) && RouteOf(env.layer, parts) == Some(r) && r.customValidators != []
    requires env.engine.validators(
               r.customValidators, FactsSent(parts), BodySeen(env.engine, Content(env.frames))) == Some(a)
    ensures var status := match a.status { case Some(n) => n case None => 200 };
      var v := FlowAt(14, env, parts, w).world;
      if 100 <= status <= 999 then Answered(env, Call(env, parts, w), Plain(status, ""), v)
      else Call(env, parts, w) == Done(Panicked, v)
  {
    hide Step, Call, Answered, RouteOf, FactsSent, Passes, FlowAt, Content, Frozen, BodySeen, Utf8View, Plain;
    var f := FlowAt(14, env, parts, w);
    AtPosition(14, env, parts, w);
    BodyAt(14, env, parts, w);
    BodyIsSeen(env.engine, Content(env.frames));
    CheckStepAnswers(env, f, r, a);
    assert BEFORE_FORWARD[14] == RouteValidators;
    var status := match a.status { case Some(n) => n case None => 200 };
    if 100 <= status <= 999 {
      AnswersTheCall(14, RouteValidators, env, parts, w, Plain(status, ""), f.world);
    } else {
      EndsAt(14, env, parts, w);
    }
  }

  // ---- preflights --------------------------------------------------------------------------------------

  /** Every header with its text, or the empty text where it does not print. */
  predicate AllPairs(headers: seq<Header>, pairs: seq<(string, string)>)
  {
    |pairs| == |headers| && forall k :: 0 <= k < |headers| ==>
      pairs[k] == (headers[k].name, match headers[k].value { case Visible(text) => text case Opaque => "" })
  }

  lemma {:induction false} PreflightPairsAreAll(headers: seq<Header>)
    ensures AllPairs(headers, PreflightPairs(headers))
  {
    if headers != [] {
      PreflightPairsAreAll(headers[1..]);
      var rest := PreflightPairs(headers[1..]);
      forall k | 0 <= k < |headers|
        ensures PreflightPairs(headers)[k] ==
                (headers[k].name, match headers[k].value { case Visible(text) => text case Opaque => "" })
      {
        if k > 0 { assert headers[1..][k - 1] == headers[k] && PreflightPairs(headers)[k] == rest[k - 1]; }
      }
    }
  }

  /**
   A preflight is answered from the CORS configuration: by its method in any case, and
   with the origin, the wanted method and the wanted headers as the first headers of
   these names say, whatever their case.
   */
  lemma PreflightIsAnswered(env: Env, parts: Parts, w: World, p: ResponseProcessor, cors: CorsConfig)
    returns (pairs: seq<(string, string)>, origin: Option<string>, verb: Option<string>, headers: Option<string>)
    requires !Excluded(env.layer, parts) && SameName(parts.verb, "OPTIONS")
    requires env.layer.processor == Some(p) && p.knobs.cors == Some(cors) && cors.enabled
    ensures AllPairs(parts.headers, pairs)
    ensures Finds(pairs, "origin", origin)
    ensures Finds(pairs, "access-control-request-method", verb)
    ensures Finds(pairs, "access-control-request-headers", headers)
    ensures var answer := env.engine.buildPreflight(cors, origin, verb, headers);
      env.engine.isPreflight(parts.verb, pairs) && 100 <= answer.status <= 999 ==>
        Call(env, parts, w) ==
        Done(Preflighted(Response(answer.status, InsertHeaders(env.engine, PLAIN, answer.headers), Generated(answer.body))), w)
  {
    hide Call, AllPairs, Finds, FindPair, PreflightPairs, SameName, EqIgnoreCase, InsertHeaders;
    pairs := PreflightPairs(parts.headers);
    origin, verb := FindPair(pairs, "origin"), FindPair(pairs, "access-control-request-method");
    headers := FindPair(pairs, "access-control-request-headers");
    PreflightPairsAreAll(parts.headers);
    FindPairFinds(pairs, "origin");
    FindPairFinds(pairs, "access-control-request-method");
    FindPairFinds(pairs, "access-control-request-headers");
    var answer := env.engine.buildPreflight(cors, origin, verb, headers);
    if env.engine.isPreflight(parts.verb, pairs) && 100 <= answer.status <= 999 {
      CaseIsIgnored(parts.verb, "OPTIONS");
      PreflightStep(env, parts, w, p, cors);
      SecondArmAnswers(env, parts, w);
    }
  }

  lemma PreflightStep(env: Env, parts: Parts, w: World, p: ResponseProcessor, cors: CorsConfig)
    requires EqIgnoreCase(parts.verb, "OPTIONS")
    requires env.layer.processor == Some(p) && p.knobs.cors == Some(cors) && cors.enabled
    requires env.engine.isPreflight(parts.verb, PreflightPairs(parts.headers))
    ensures var pairs := PreflightPairs(parts.headers);
      var answer := env.engine.buildPreflight(
        cors, FindPair(pairs, "origin"), FindPair(pairs, "access-control-request-method"),
        FindPair(pairs, "access-control-request-headers"));
      100 <= answer.status <= 999 ==>
        StepPreflight(env, Start(parts, w)) ==
        Done(Preflighted(Response(answer.status, InsertHeaders(env.engine, PLAIN, answer.headers), Generated(answer.body))), w)
  {
    hide PreflightPairs, FindPair, EqIgnoreCase, InsertHeaders;
  }

  lemma SecondArmAnswers(env: Env, parts: Parts, w: World)
    requires !Excluded(env.layer, parts) && StepPreflight(env, Start(parts, w)).Done?
    ensures Call(env, parts, w) == StepPreflight(env, Start(parts, w))
  {
    hide Step, StepPreflight;
    var f := Start(parts, w);
    assert ORDER == [ExcludedPath] + ([Preflight] + ORDER[2..]);
    RunFirst(ExcludedPath, [Preflight] + ORDER[2..], env, f);
    DispatchEnds(env, f);
    NotExcluded(env, f);
    RunFirst(Preflight, ORDER[2..], env, f);
  }
}
