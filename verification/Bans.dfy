/**
 Bans over request sequences. The ban stage and the response processor each hold
 a handle to a ban manager. When both handles are the same object, a ban written
 by a usage or return-pattern rule keeps the address out until it expires; when
 they are different objects, the stage never hears of it.
 */
module Bans {
  import opened BanTables
  import opened BodyBuffer
  import opened Endings
  import opened Engine
  import opened Frames
  import opened Http
  import opened Layer
  import opened Octets
  import opened Pipeline
  import opened Runs
  import opened Traffic
  import opened Wrappers

  // ---- every arm keeps a running ban ----------------------------------------------------

  lemma UsageKeepsBans(env: Env, f: Flow)
    ensures BansKept(env, f.world, WorldOf(StepUsageRules(env, f)))
  {
    hide Block, KeepsAll;
    KeepsAllSame(env.now, f.world.bans);
    if f.route.Some? && env.layer.processor.Some? && KeepsRunningBans(env.engine) {
      var p := env.layer.processor.value;
      var (w, banned) := UsagePass(env, f, p, f.route.value.behaviorRules);
      assert KeepsTable(env.now, BehaviorState(f.world.tracker, BansOf(f.world, p.manager)).bans, BansOf(w, p.manager));
      KeepsAllReplace(env.now, f.world, p.manager, BansOf(w, p.manager));
      BlockFrame(env, f.(world := w), 403, ACTIVITY_BANNED_MESSAGE);
      if banned && f.route.value.behaviorRules != [] {
        KeepsAllChains(env.now, f.world.bans, w.bans, WorldOf(StepUsageRules(env, f)).bans);
      }
    }
  }

  lemma BanArmKeepsBans(env: Env, f: Flow)
    ensures BansKept(env, f.world, WorldOf(StepBans(env, f)))
  {
    hide Finish, KeepsAll, StageAnswer;
    KeepsAllSame(env.now, f.world.bans);
    if env.layer.stage.Some? && KeepsRunningBans(env.engine) {
      var stage := env.layer.stage.value;
      var (w, answer) := BanDecision(env, f, stage);
      assert KeepsTable(env.now, BansOf(f.world, stage.manager), BansOf(w, stage.manager));
      KeepsAllReplace(env.now, f.world, stage.manager, BansOf(w, stage.manager));
      if answer.Some? {
        FinishFrame(env, f.(world := w), StageAnswer(answer.value));
        KeepsAllChains(env.now, f.world.bans, w.bans, Finish(env, f.(world := w), StageAnswer(answer.value)).world.bans);
      }
    }
  }

  lemma TierArmKeepsBans(env: Env, f: Flow)
    ensures BansKept(env, f.world, WorldOf(StepTiers(env, f)))
  {
    hide Finish, KeepsAll, StageAnswer;
    KeepsAllSame(env.now, f.world.bans);
    if env.layer.stage.Some? && KeepsRunningBans(env.engine) {
      var stage := env.layer.stage.value;
      var (w, answer) := TierDecision(env, f, stage);
      var s := TierStores(f.world.windows, f.world.counts, BansOf(f.world, stage.manager));
      assert KeepsTable(env.now, s.bans, BansOf(w, stage.manager));
      KeepsAllReplace(env.now, f.world, stage.manager, BansOf(w, stage.manager));
      if answer.Some? {
        FinishFrame(env, f.(world := w), StageAnswer(answer.value));
        KeepsAllChains(env.now, f.world.bans, w.bans, Finish(env, f.(world := w), StageAnswer(answer.value)).world.bans);
      }
    }
  }

  lemma ForwardKeepsBans(env: Env, f: Flow, body: Octets)
    ensures BansKept(env, f.world, WorldOf(ForwardCall(env, f, body)))
  {
    hide Pass, KeepsAll, KeepsRunningBans;
    KeepsAllSame(env.now, f.world.bans);
    var w := f.world.(received := f.world.received + [Request(f.parts, body)]);
    if env.inner.answer(w.received).Reply? {
      PassFrame(env, InputFromFacts(f.facts), ForwardedLane, env.inner.answer(w.received).response, w);
    }
  }

  lemma OrdinaryArmKeepsBans(arm: Arm, env: Env, f: Flow)
    requires !TouchesBans(arm) && arm != ForwardArm && arm != ExcludedPath
    ensures BansKept(env, f.world, WorldOf(Step(arm, env, f)))
  {
    hide Step, KeepsAll, KeepsRunningBans;
    KeepsAllSame(env.now, f.world.bans);
    StepFrame(arm, env, f);
  }

  lemma StepKeepsBans(arm: Arm, env: Env, f: Flow)
    ensures BansKept(env, f.world, WorldOf(Step(arm, env, f)))
  {
    hide StepUsageRules, StepBans, StepTiers, ForwardCall, KeepsAll, KeepsRunningBans, SameLimits;
    match arm {
      case UsageRules => UsageKeepsBans(env, f);
      case BanArm => BanArmKeepsBans(env, f);
      case TierArm => TierArmKeepsBans(env, f);
      case ForwardArm => ForwardKeepsBans(env, f, Rebuilt(f.buffered));
      case ExcludedPath =>
        ForwardKeepsBans(env, f, []);
        KeepsAllSame(env.now, f.world.bans);
      case _ => OrdinaryArmKeepsBans(arm, env, f);
    }
  }

  lemma {:induction false} RunKeepsBans(arms: seq<Arm>, env: Env, f: Flow)
    ensures BansKept(env, f.world, WorldOf(Run(arms, env, f)))
  {
    hide Step, KeepsAll, KeepsRunningBans;
    KeepsAllSame(env.now, f.world.bans);
    if arms != [] {
      StepKeepsBans(arms[0], env, f);
      match Step(arms[0], env, f) {
        case Continue(g) =>
          RunKeepsBans(arms[1..], env, g);
          if KeepsRunningBans(env.engine) {
            KeepsAllChains(env.now, f.world.bans, g.world.bans, WorldOf(Run(arms[1..], env, g)).bans);
          }
        case Done(_, _) =>
      }
    }
  }

  /** One visit keeps every running ban. */
  lemma VisitKeepsBan(s: Site, v: Visit, w: World, m: IpBanManager, ip: Ip, until: nat)
    requires KeepsRunningBans(s.engine)
    requires Live(w, m, ip, until) && v.now < until
    ensures Live(WorldOf(Visited(s, v, w)), m, ip, until)
  {
    hide Step, KeepsRunningBans;
    RunKeepsBans(ORDER, EnvFor(s, v), Start(v.parts, w));
    var w' := WorldOf(Visited(s, v, w));
    assert KeepsTable(v.now, w.bans[m], w'.bans[m]);
  }

  // ---- a running ban keeps the address out ------------------------------------------------

  /** The ban stage is asked about this request, and may answer. */
  predicate Guarded(s: Site, parts: Parts)
  {
    && !Excluded(s.layer, parts)
    && !Bypassed(RouteOf(s.layer, parts), "ip_ban")
    && s.layer.stage.Some?
    && s.layer.stage.value.knobs.ipBan.enabled
    && !s.layer.stage.value.knobs.passiveMode
  }

  lemma BanStep(env: Env, f: Flow, ip: Ip)
    requires AnswersRunningBans(env.engine)
    requires env.layer.stage.Some? && !Bypassed(f.route, "ip_ban")
    requires env.layer.stage.value.knobs.ipBan.enabled && !env.layer.stage.value.knobs.passiveMode
    requires f.facts.ip == Some(ip) && Live(f.world, env.layer.stage.value.manager, ip, env.now + 1)
    ensures StepBans(env, f).Done?
  {
    hide Pass, Bypassed, StageAnswer;
    var stage := env.layer.stage.value;
    assert env.engine.decideBans(stage.knobs, BansOf(f.world, stage.manager), env.now, Some(ip)).1.Some?;
  }

  lemma BannedIsStopped(s: Site, v: Visit, w: World, ip: Ip, until: nat)
    requires KeepsRunningBans(s.engine) && AnswersRunningBans(s.engine)
    requires Guarded(s, v.parts) && v.parts.extensions.clientIp == Some(ip)
    requires Live(w, s.layer.stage.value.manager, ip, until) && v.now < until
    ensures Visited(s, v, w).Done? && !Reaches(Visited(s, v, w).exit)
    ensures SameLimits(w, WorldOf(Visited(s, v, w)))
  {
    hide Step, Run, KeepsRunningBans, AnswersRunningBans, Bypassed, Call, Live;
    var env, f := EnvFor(s, v), Start(v.parts, w);
    ReachesThroughForward(env, v.parts, w);
    if Run(BEFORE_FORWARD[..BANS_AT], env, f).Continue? {
      AnsweredAtBans(env, v.parts, w, ip, until);
    }
    StoppedAtBans(env, v.parts, w);
  }

  /** A running ban is still there when the ban arm reads it, and answers. */
  lemma AnsweredAtBans(env: Env, parts: Parts, w: World, ip: Ip, until: nat)
    requires KeepsRunningBans(env.engine) && AnswersRunningBans(env.engine)
    requires !Excluded(env.layer, parts) && !Bypassed(RouteOf(env.layer, parts), "ip_ban")
    requires env.layer.stage.Some? && parts.extensions.clientIp == Some(ip)
    requires env.layer.stage.value.knobs.ipBan.enabled && !env.layer.stage.value.knobs.passiveMode
    requires Live(w, env.layer.stage.value.manager, ip, until) && env.now < until
    requires Run(BEFORE_FORWARD[..BANS_AT], env, Start(parts, w)).Continue?
    ensures Step(BanArm, env, Run(BEFORE_FORWARD[..BANS_AT], env, Start(parts, w)).flow).Done?
  {
    hide Step, StepBans, KeepsRunningBans, AnswersRunningBans, Bypassed;
    var f := Start(parts, w);
    var g := Run(BEFORE_FORWARD[..BANS_AT], env, f).flow;
    Positions();
    PrefixFlow(BANS_AT, env, parts, w);
    RunKeepsBans(BEFORE_FORWARD[..BANS_AT], env, f);
    BanStep(env, g, ip);
    DispatchScan(env, g);
  }

  /** A request that does not pass the ban arm reaches neither the tiers nor the wrapped service. */
  lemma StoppedAtBans(env: Env, parts: Parts, w: World)
    requires !Excluded(env.layer, parts)
    requires var o := Run(BEFORE_FORWARD[..BANS_AT], env, Start(parts, w));
      o.Done? || Step(BanArm, env, o.flow).Done?
    ensures Run(BEFORE_FORWARD, env, Start(parts, w)).Done?
    ensures SameLimits(w, WorldOf(Call(env, parts, w)))
  {
    hide Step, Call;
    Positions();
    var f := Start(parts, w);
    if Run(BEFORE_FORWARD, env, f).Continue? {
      SplitAt(BANS_AT, ALL, env, f);
      assert false;
    }
    if Consults(env, parts, w) {
      var front := BEFORE_FORWARD[..TIERS_AT];
      assert front == front[..BANS_AT] + [BanArm] + front[BANS_AT + 1..];
      assert front[..BANS_AT] == BEFORE_FORWARD[..BANS_AT];
      Through(front[..BANS_AT], BanArm, front[BANS_AT + 1..], env, f);
      assert false;
    }
    ConsultedOnceOrNever(env, parts, w);
  }

  /**
   Bans over any request sequence. While a ban is running in the ban stage's own
   manager, no request of that address reaches the wrapped service or consumes
   rate-limit budget, whatever else is served in between, except on an excluded
   path, under the ban bypass, with banning off or in passive mode.
   */
  lemma {:induction false} BannedStaysOut(s: Site, visits: seq<Visit>, w: World, ip: Ip, until: nat, k: nat)
    requires KeepsRunningBans(s.engine) && AnswersRunningBans(s.engine)
    requires s.layer.stage.Some? && Live(w, s.layer.stage.value.manager, ip, until)
    requires forall j: nat | j < |visits| :: visits[j].now < until
    requires k < |visits| && visits[k].parts.extensions.clientIp == Some(ip) && Guarded(s, visits[k].parts)
    ensures Visited(s, visits[k], WorldBefore(s, visits, k, w)).Done?
    ensures !Reaches(Visited(s, visits[k], WorldBefore(s, visits, k, w)).exit)
    ensures SameLimits(WorldBefore(s, visits, k, w), WorldOf(Visited(s, visits[k], WorldBefore(s, visits, k, w))))
    decreases k
  {
    hide Call, KeepsRunningBans, AnswersRunningBans, Guarded, Live, SameLimits;
    if k == 0 {
      assert visits[..0] == [];
      BannedIsStopped(s, visits[0], w, ip, until);
    } else {
      VisitKeepsBan(s, visits[0], w, s.layer.stage.value.manager, ip, until);
      var w1 := WorldOf(Visited(s, visits[0], w));
      BannedStaysOut(s, visits[1..], w1, ip, until, k - 1);
      assert visits[..k][0] == visits[0] && visits[..k][1..] == visits[1..][..k - 1];
    }
  }

  // ---- which manager a rule's ban lands in ---------------------------------------------------

  /** A usage rule bans in the processor's manager; the stage sees it when the handles coincide. */
  lemma UsageBanLands(env: Env, f: Flow, ip: Ip, until: nat)
    requires f.route.Some? && f.route.value.behaviorRules != [] && env.layer.processor.Some?
    requires var p := env.layer.processor.value;
      BannedUntil(env.engine.usageRules(
        p.knobs, BehaviorState(f.world.tracker, BansOf(f.world, p.manager)), env.now,
        f.facts.verb + ":" + f.facts.path, f.facts.ipString, f.route.value.behaviorRules).0.bans, ip, until)
    requires KeepsRunningBans(env.engine) && env.now < until
    ensures Live(WorldOf(StepUsageRules(env, f)), env.layer.processor.value.manager, ip, until)
  {
    hide Block;
    var p := env.layer.processor.value;
    var (w, banned) := UsagePass(env, f, p, f.route.value.behaviorRules);
    BlockFrame(env, f.(world := w), 403, ACTIVITY_BANNED_MESSAGE);
    assert Live(w, p.manager, ip, until);
    if banned {
      assert KeepsTable(env.now, w.bans[p.manager], WorldOf(StepUsageRules(env, f)).bans[p.manager]);
    }
  }

  /** A return rule bans in the processor's manager too: the forward that crossed it leaves the ban behind. */
  lemma ReturnBanLands(env: Env, f: Flow, body: Octets, response: Response, ip: Ip, until: nat)
    requires env.inner.answer(f.world.received + [Request(f.parts, body)]) == Reply(response)
    requires env.layer.processor.Some?
    requires var p := env.layer.processor.value;
      BannedUntil(env.engine.process(
        p.knobs, BehaviorState(f.world.tracker, BansOf(f.world, p.manager)), env.now,
        RequestBits(f.facts.verb, f.facts.path, f.facts.ipString, f.facts.origin), response.status).0.bans, ip, until)
    ensures Live(WorldOf(ForwardCall(env, f, body)), env.layer.processor.value.manager, ip, until)
  {
    hide InsertHeaders;
  }

  // ---- different managers -------------------------------------------------------------------

  /** A table the processor does not own, before and after. */
  ghost predicate Untouched(env: Env, v: World, w: World, m: IpBanManager)
  {
    m in v.bans && (env.layer.processor.Some? ==> m != env.layer.processor.value.manager) ==>
      m in w.bans && w.bans[m] == v.bans[m]
  }

  lemma UsageUntouched(env: Env, f: Flow, m: IpBanManager)
    ensures Untouched(env, f.world, WorldOf(StepUsageRules(env, f)), m)
  {
    hide Block;
    if f.route.Some? && env.layer.processor.Some? {
      var (w, banned) := UsagePass(env, f, env.layer.processor.value, f.route.value.behaviorRules);
      BlockFrame(env, f.(world := w), 403, ACTIVITY_BANNED_MESSAGE);
    }
  }

  lemma ForwardUntouched(env: Env, f: Flow, body: Octets, m: IpBanManager)
    ensures Untouched(env, f.world, WorldOf(ForwardCall(env, f, body)), m)
  {
    hide Pass;
    var w := f.world.(received := f.world.received + [Request(f.parts, body)]);
    if env.inner.answer(w.received).Reply? {
      PassFrame(env, InputFromFacts(f.facts), ForwardedLane, env.inner.answer(w.received).response, w);
    }
  }

  lemma OrdinaryArmUntouched(arm: Arm, env: Env, f: Flow, m: IpBanManager)
    requires !TouchesBans(arm) && arm != ForwardArm && arm != ExcludedPath
    ensures Untouched(env, f.world, WorldOf(Step(arm, env, f)), m)
  {
    hide Step;
    StepFrame(arm, env, f);
  }

  lemma StepUntouched(arm: Arm, env: Env, f: Flow, m: IpBanManager)
    requires arm != BanArm && arm != TierArm
    ensures Untouched(env, f.world, WorldOf(Step(arm, env, f)), m)
  {
    hide StepUsageRules, StepBans, StepTiers, ForwardCall;
    match arm {
      case UsageRules => UsageUntouched(env, f, m);
      case ForwardArm => ForwardUntouched(env, f, Rebuilt(f.buffered), m);
      case ExcludedPath => ForwardUntouched(env, f, [], m);
      case _ => OrdinaryArmUntouched(arm, env, f, m);
    }
  }

  lemma {:induction false} RunUntouched(arms: seq<Arm>, env: Env, f: Flow, m: IpBanManager)
    requires BanArm !in arms && TierArm !in arms
    ensures Untouched(env, f.world, WorldOf(Run(arms, env, f)), m)
  {
    hide Step;
    if arms != [] {
      StepUntouched(arms[0], env, f, m);
      match Step(arms[0], env, f) {
        case Continue(g) => RunUntouched(arms[1..], env, g, m);
        case Done(_, _) =>
      }
    }
  }

  // ---- what the stage itself writes --------------------------------------------------------------

  /** The table after the ban decision about a client, if there was one. */
  ghost predicate BanDecided(e: Engine, k: StageKnobs, now: nat, who: Option<Ip>, t: BanTable, u: BanTable)
  {
    u == t || u == e.decideBans(k, t, now, who).0
  }

  /** The table after the tier decision about a client, if there was one. */
  ghost predicate TiersDecided(e: Engine, k: StageKnobs, now: nat, who: Option<Ip>, t: BanTable, u: BanTable)
  {
    u == t || exists ws: Windows, cs: Counts, q: TierInput ::
                q.ip == who && u == e.decideTiers(k, TierStores(ws, cs, t), now, q).0.bans
  }

  /** One visit's worth of the stage's own decisions: a ban decision, then a tier decision, at most. */
  ghost predicate OwnDecisions(e: Engine, k: StageKnobs, v: Visit, t: BanTable, u: BanTable)
  {
    exists mid: BanTable ::
      && BanDecided(e, k, v.now, v.parts.extensions.clientIp, t, mid)
      && TiersDecided(e, k, v.now, v.parts.extensions.clientIp, mid, u)
  }

  /** The stage's table is not the processor's. */
  ghost predicate ManagersDiffer(layer: GuardLayer, w: World)
    ensures ManagersDiffer(layer, w) ==> layer.stage.Some?
  {
    && layer.stage.Some? && layer.stage.value.manager in w.bans
    && (layer.processor.Some? ==> layer.stage.value.manager != layer.processor.value.manager)
  }

  /** The stage's table between two worlds, which stays the stage's. */
  ghost predicate TableKept(layer: GuardLayer, v: World, w: World)
  {
    ManagersDiffer(layer, v) ==>
      ManagersDiffer(layer, w) && BansOf(w, layer.stage.value.manager) == BansOf(v, layer.stage.value.manager)
  }

  lemma RunKeepsTable(arms: seq<Arm>, env: Env, f: Flow)
    requires BanArm !in arms && TierArm !in arms
    ensures TableKept(env.layer, f.world, WorldOf(Run(arms, env, f)))
  {
    hide Run;
    if env.layer.stage.Some? { RunUntouched(arms, env, f, env.layer.stage.value.manager); }
  }

  lemma BanArmDecides(env: Env, f: Flow)
    requires ManagersDiffer(env.layer, f.world)
    ensures var o, m := Step(BanArm, env, f), env.layer.stage.value.manager;
      && ManagersDiffer(env.layer, WorldOf(o)) && (o.Continue? ==> o.flow.facts == f.facts)
      && BanDecided(env.engine, env.layer.stage.value.knobs, env.now, f.facts.ip,
                    BansOf(f.world, m), BansOf(WorldOf(o), m))
  {
    hide Finish, StageAnswer, Bypassed, KeepsAll, KeepsRunningBans;
    var (w, answer) := BanDecision(env, f, env.layer.stage.value);
    if answer.Some? { FinishFrame(env, f.(world := w), StageAnswer(answer.value)); }
  }

  lemma TierArmDecides(env: Env, f: Flow)
    requires ManagersDiffer(env.layer, f.world)
    ensures var o, m := Step(TierArm, env, f), env.layer.stage.value.manager;
      && ManagersDiffer(env.layer, WorldOf(o))
      && TiersDecided(env.engine, env.layer.stage.value.knobs, env.now, f.facts.ip,
                      BansOf(f.world, m), BansOf(WorldOf(o), m))
  {
    hide Finish, StageAnswer, Bypassed, KeepsAll, KeepsRunningBans;
    var (w, answer) := TierDecision(env, f, env.layer.stage.value);
    assert TierQuestion(f).ip == f.facts.ip;
    if answer.Some? { FinishFrame(env, f.(world := w), StageAnswer(answer.value)); }
  }

  /** From behind the ban arm on. */
  lemma TableBehindBans(env: Env, f: Flow)
    requires ManagersDiffer(env.layer, f.world)
    requires f.facts.path !in env.layer.excludePaths
    ensures var w, m := WorldOf(Run(ORDER[BANS_AT + 1..], env, f)), env.layer.stage.value.manager;
      && ManagersDiffer(env.layer, w)
      && TiersDecided(env.engine, env.layer.stage.value.knobs, env.now, f.facts.ip, BansOf(f.world, m), BansOf(w, m))
  {
    hide Step, ManagersDiffer, TiersDecided;
    var middle, last := [GeoArm, CloudArm, RouteAgents, AgentArm, CarrierTiers], [ThreatBlock, CustomRequestArm, ForwardArm];
    assert ORDER[BANS_AT + 1..] == middle + ([TierArm] + last);
    RunAppend(middle, [TierArm] + last, env, f);
    RunKeepsTable(middle, env, f);
    RunFrame(middle, env, f);
    NoTierDecision(env, f);
    if Run(middle, env, f).Continue? {
      var g := Run(middle, env, f).flow;
      RunFirst(TierArm, last, env, g);
      TierArmDecides(env, g);
      if Step(TierArm, env, g).Continue? {
        RunKeepsTable(last, env, Step(TierArm, env, g).flow);
      }
    }
  }

  lemma NoTierDecision(env: Env, f: Flow)
    requires env.layer.stage.Some?
    ensures var t := BansOf(f.world, env.layer.stage.value.manager);
      TiersDecided(env.engine, env.layer.stage.value.knobs, env.now, f.facts.ip, t, t)
  {
  }

  /**
   The stage's table over one visit. When the processor bans in another manager,
   whatever its usage and return rules ban, the table moves by the stage's own ban
   and tier decisions about the visitor and by nothing else.
   */
  lemma TableMovesByOwnDecisions(s: Site, v: Visit, w: World)
    requires ManagersDiffer(s.layer, w)
    ensures var w', m := WorldOf(Visited(s, v, w)), s.layer.stage.value.manager;
      && ManagersDiffer(s.layer, w')
      && OwnDecisions(s.engine, s.layer.stage.value.knobs, v, BansOf(w, m), BansOf(w', m))
  {
    hide Step, Run, ManagersDiffer, TiersDecided, BanDecided, ForwardCall, TableKept;
    var env, f := EnvFor(s, v), Start(v.parts, w);
    NoTierDecision(env, f);
    NoBanDecision(env, f);
    if Excluded(s.layer, v.parts) {
      FirstArm(env, v.parts, w);
      ForwardKeepsTable(env, f, []);
    } else {
      var front := BEFORE_FORWARD[..BANS_AT];
      OrderAroundBans();
      RunAppend(front, [BanArm] + ORDER[BANS_AT + 1..], env, f);
      RunKeepsTable(front, env, f);
      RunFrame(front, env, f);
      TableStays(s.layer, w, WorldOf(Run(front, env, f)));
      if Run(front, env, f).Continue? {
        TableFromBans(s, v, Run(front, env, f).flow);
      }
    }
  }

  lemma NoBanDecision(env: Env, f: Flow)
    requires env.layer.stage.Some?
    ensures var t := BansOf(f.world, env.layer.stage.value.manager);
      BanDecided(env.engine, env.layer.stage.value.knobs, env.now, f.facts.ip, t, t)
  {
  }

  lemma TableStays(layer: GuardLayer, v: World, w: World)
    requires ManagersDiffer(layer, v) && TableKept(layer, v, w)
    ensures ManagersDiffer(layer, w) && BansOf(w, layer.stage.value.manager) == BansOf(v, layer.stage.value.manager)
  {
  }

  lemma ForwardKeepsTable(env: Env, f: Flow, body: Octets)
    requires ManagersDiffer(env.layer, f.world)
    ensures var w, m := WorldOf(ForwardCall(env, f, body)), env.layer.stage.value.manager;
      ManagersDiffer(env.layer, w) && BansOf(w, m) == BansOf(f.world, m)
  {
    hide ForwardCall;
    ForwardUntouched(env, f, body, env.layer.stage.value.manager);
  }

  lemma OrderAroundBans()
    ensures ORDER == BEFORE_FORWARD[..BANS_AT] + ([BanArm] + ORDER[BANS_AT + 1..])
    ensures BanArm !in BEFORE_FORWARD[..BANS_AT] && TierArm !in BEFORE_FORWARD[..BANS_AT]
    ensures ForwardArm !in BEFORE_FORWARD[..BANS_AT]
  {
    Positions();
    forall x | x in BEFORE_FORWARD[..BANS_AT] ensures x != BanArm && x != TierArm && x != ForwardArm {
      var j :| 0 <= j < BANS_AT && BEFORE_FORWARD[j] == x;
      ArmStandsInPlace(j);
    }
  }

  /** From the ban arm on. */
  lemma TableFromBans(s: Site, v: Visit, f: Flow)
    requires ManagersDiffer(s.layer, f.world)
    requires f.facts == Http.Extract(v.parts) && !Excluded(s.layer, v.parts)
    ensures var w, m := WorldOf(Run([BanArm] + ORDER[BANS_AT + 1..], EnvFor(s, v), f)), s.layer.stage.value.manager;
      && ManagersDiffer(s.layer, w)
      && OwnDecisions(s.engine, s.layer.stage.value.knobs, v, BansOf(f.world, m), BansOf(w, m))
  {
    hide Step, Run, ManagersDiffer, TiersDecided, BanDecided;
    var env := EnvFor(s, v);
    RunFirst(BanArm, ORDER[BANS_AT + 1..], env, f);
    BanArmDecides(env, f);
    if Step(BanArm, env, f).Continue? {
      TableBehindBans(env, Step(BanArm, env, f).flow);
    } else {
      NoTierDecision(env, f.(world := WorldOf(Step(BanArm, env, f))));
    }
  }

  /** A table that each visit in turn moved by the stage's own decisions. */
  ghost predicate OwnHistory(e: Engine, k: StageKnobs, visits: seq<Visit>, t: BanTable, u: BanTable)
  {
    if visits == [] then u == t
    else exists mid: BanTable :: OwnDecisions(e, k, visits[0], t, mid) && OwnHistory(e, k, visits[1..], mid, u)
  }

  /**
   With different managers no rule ban ever reaches the ban stage, for every
   engine, auto-banning ones included: over any request sequence the stage's table
   is what its own decisions about the visitors, in order, have made of it.
   */
  lemma {:induction false} RuleBansNeverReachTheStage(s: Site, visits: seq<Visit>, w: World)
    requires ManagersDiffer(s.layer, w)
    ensures var m := s.layer.stage.value.manager;
      && ManagersDiffer(s.layer, Serve(s, visits, w))
      && OwnHistory(s.engine, s.layer.stage.value.knobs, visits, BansOf(w, m), BansOf(Serve(s, visits, w), m))
  {
    hide Visited, OwnDecisions, ManagersDiffer;
    if visits != [] {
      TableMovesByOwnDecisions(s, visits[0], w);
      RuleBansNeverReachTheStage(s, visits[1..], WorldOf(Visited(s, visits[0], w)));
    }
  }

  /** The engine's own ban and tier decisions write no ban. */
  ghost predicate StageWritesNoBans(e: Engine)
  {
    && (forall k: StageKnobs, t: BanTable, now: nat, who: Option<Ip> :: e.decideBans(k, t, now, who).0 == t)
    && (forall k: StageKnobs, s: TierStores, now: nat, q: TierInput :: e.decideTiers(k, s, now, q).0.bans == s.bans)
  }

  lemma {:induction false} SilentHistory(e: Engine, k: StageKnobs, visits: seq<Visit>, t: BanTable, u: BanTable)
    requires StageWritesNoBans(e) && OwnHistory(e, k, visits, t, u)
    ensures u == t
  {
    if visits != [] {
      var mid :| OwnDecisions(e, k, visits[0], t, mid) && OwnHistory(e, k, visits[1..], mid, u);
      SilentHistory(e, k, visits[1..], mid, u);
    }
  }

  /** The special case: a stage that writes no ban of its own keeps its table, whatever the rules ban. */
  lemma SilentStageKeepsItsTable(s: Site, visits: seq<Visit>, w: World)
    requires StageWritesNoBans(s.engine) && ManagersDiffer(s.layer, w)
    ensures var m := s.layer.stage.value.manager; BansOf(Serve(s, visits, w), m) == BansOf(w, m)
  {
    hide StageWritesNoBans, Serve;
    var m := s.layer.stage.value.manager;
    RuleBansNeverReachTheStage(s, visits, w);
    SilentHistory(s.engine, s.layer.stage.value.knobs, visits, BansOf(w, m), BansOf(Serve(s, visits, w), m));
  }

  /**
   With one shared manager a rule ban counts: once a visit has left a running ban
   of the address in the processor's manager, the address stays out.
   */
  lemma RuleBanKeepsOut(s: Site, first: Visit, visits: seq<Visit>, w: World, ip: Ip, until: nat, k: nat)
    requires KeepsRunningBans(s.engine) && AnswersRunningBans(s.engine)
    requires s.layer.stage.Some? && s.layer.processor.Some?
    requires s.layer.processor.value.manager == s.layer.stage.value.manager
    requires Live(WorldOf(Visited(s, first, w)), s.layer.processor.value.manager, ip, until)
    requires forall j: nat | j < |visits| :: visits[j].now < until
    requires k < |visits| && visits[k].parts.extensions.clientIp == Some(ip) && Guarded(s, visits[k].parts)
    ensures var before := WorldBefore(s, visits, k, WorldOf(Visited(s, first, w)));
      && Visited(s, visits[k], before).Done? && !Reaches(Visited(s, visits[k], before).exit)
      && SameLimits(before, WorldOf(Visited(s, visits[k], before)))
  {
    hide Call, KeepsRunningBans, AnswersRunningBans, Guarded, Live;
    BannedStaysOut(s, visits, WorldOf(Visited(s, first, w)), ip, until, k);
  }

  /** What the usage rules of a route return for a request they are the first to look at. */
  function UsageVerdict(s: Site, v: Visit, w: World, p: ResponseProcessor, rules: seq<Handle>): BehaviorState
  {
    s.engine.usageRules(
      p.knobs, BehaviorState(w.tracker, BansOf(w, p.manager)), v.now,
      v.parts.verb + ":" + v.parts.uri.path, IpString(v.parts.extensions.clientIp), rules).0
  }

  /** A visit whose usage rules ban leaves the ban running in the processor's manager, however it ends. */
  lemma UsageBanIsLive(s: Site, v: Visit, w: World, r: RouteConfig, ip: Ip, until: nat)
    requires KeepsRunningBans(s.engine) && s.layer.processor.Some? && v.now < until
    requires !Excluded(s.layer, v.parts) && StepPreflight(EnvFor(s, v), Start(v.parts, w)).Continue?
    requires RouteOf(s.layer, v.parts) == Some(r) && r.behaviorRules != []
    requires BannedUntil(UsageVerdict(s, v, w, s.layer.processor.value, r.behaviorRules).bans, ip, until)
    ensures Live(WorldOf(Visited(s, v, w)), s.layer.processor.value.manager, ip, until)
  {
    hide Step, StepPreflight, StepUsageRules, KeepsRunningBans;
    var env, f := EnvFor(s, v), Start(v.parts, w);
    var g := f.(route := Some(r));
    var front, rest := [ExcludedPath, Preflight, ResolveRoute], ORDER[4..];
    FrontFlow(env, v.parts, w);
    assert ORDER == front + ([UsageRules] + rest);
    RunAppend(front, [UsageRules] + rest, env, f);
    RunFirst(UsageRules, rest, env, g);
    UsageBanLands(env, g, ip, until);
    UsageDispatch(env, g);
    if StepUsageRules(env, g).Continue? {
      LiveThroughRun(rest, env, StepUsageRules(env, g).flow, s.layer.processor.value.manager, ip, until);
    }
  }

  lemma UsageDispatch(env: Env, f: Flow)
    ensures Step(UsageRules, env, f) == StepUsageRules(env, f)
  {
    hide StepUsageRules;
  }

  lemma LiveThroughRun(arms: seq<Arm>, env: Env, f: Flow, m: IpBanManager, ip: Ip, until: nat)
    requires KeepsRunningBans(env.engine) && Live(f.world, m, ip, until) && env.now < until
    ensures Live(WorldOf(Run(arms, env, f)), m, ip, until)
  {
    hide Run, KeepsRunningBans;
    RunKeepsBans(arms, env, f);
    assert KeepsTable(env.now, f.world.bans[m], WorldOf(Run(arms, env, f)).bans[m]);
  }

  /**
   A usage ban keeps the address out, end to end. When the processor and the ban
   stage share one manager and the usage rules of a visit ban an address, no later
   visit of that address reaches the wrapped service before the ban expires,
   whatever is served in between, except on an excluded path, under the ban
   bypass, with banning off or in passive mode.
   */
  lemma UsageBanKeepsOut(s: Site, first: Visit, r: RouteConfig, visits: seq<Visit>, w: World, ip: Ip, until: nat, k: nat)
    requires KeepsRunningBans(s.engine) && AnswersRunningBans(s.engine)
    requires s.layer.stage.Some? && s.layer.processor.Some?
    requires s.layer.processor.value.manager == s.layer.stage.value.manager
    requires !Excluded(s.layer, first.parts) && StepPreflight(EnvFor(s, first), Start(first.parts, w)).Continue?
    requires RouteOf(s.layer, first.parts) == Some(r) && r.behaviorRules != []
    requires BannedUntil(UsageVerdict(s, first, w, s.layer.processor.value, r.behaviorRules).bans, ip, until)
    requires first.now < until && forall j: nat | j < |visits| :: visits[j].now < until
    requires k < |visits| && visits[k].parts.extensions.clientIp == Some(ip) && Guarded(s, visits[k].parts)
    ensures var before := WorldBefore(s, visits, k, WorldOf(Visited(s, first, w)));
      && Visited(s, visits[k], before).Done? && !Reaches(Visited(s, visits[k], before).exit)
      && SameLimits(before, WorldOf(Visited(s, visits[k], before)))
  {
    hide Call, KeepsRunningBans, AnswersRunningBans, Guarded, Live, StepPreflight, Excluded, RouteOf;
    UsageBanIsLive(s, first, w, r, ip, until);
    RuleBanKeepsOut(s, first, visits, w, ip, until, k);
  }

  /** A forwarded visit whose return rules ban leaves the ban running in the processor's manager. */
  lemma ReturnBanIsLive(s: Site, v: Visit, w: World, response: Response, ip: Ip, until: nat)
    requires s.layer.processor.Some? && !Excluded(s.layer, v.parts)
    requires var o := Run(BEFORE_FORWARD, EnvFor(s, v), Start(v.parts, w));
      && o.Continue?
      && var g, p := o.flow, s.layer.processor.value;
      && s.inner.answer(g.world.received + [Request(g.parts, Rebuilt(g.buffered))]) == Reply(response)
      && BannedUntil(s.engine.process(
           p.knobs, BehaviorState(g.world.tracker, BansOf(g.world, p.manager)), v.now,
           RequestBits(g.facts.verb, g.facts.path, g.facts.ipString, g.facts.origin), response.status).0.bans, ip, until)
    ensures Live(WorldOf(Visited(s, v, w)), s.layer.processor.value.manager, ip, until)
  {
    hide Run, ForwardCall;
    var env := EnvFor(s, v);
    var g := Run(BEFORE_FORWARD, env, Start(v.parts, w)).flow;
    ReachesThroughForward(env, v.parts, w);
    ReturnBanLands(env, g, Rebuilt(g.buffered), response, ip, until);
  }

  /** The return rules ban in this pass, whatever answer it runs over. */
  predicate PassBans(env: Env, input: ProcessorInput, response: Response, v: World, ip: Ip, until: nat)
  {
    env.layer.processor.Some? &&
    var p := env.layer.processor.value;
    BannedUntil(env.engine.process(
      p.knobs, BehaviorState(v.tracker, BansOf(v, p.manager)), env.now,
      RequestBits(input.verb, input.urlPath, input.clientIp, input.origin), response.status).0.bans, ip, until)
  }

  lemma PassBanLands(env: Env, input: ProcessorInput, lane: Lane, response: Response, v: World, ip: Ip, until: nat)
    requires PassBans(env, input, response, v, ip, until)
    ensures Live(Pass(env, input, lane, response, v).1, env.layer.processor.value.manager, ip, until)
  {
    hide InsertHeaders;
  }

  /**
   A return ban keeps the address out, end to end, whichever answer the visit got: a
   forward, an excluded path, a gate denial or a block by any arm. The visit ends in a
   response pass over `response` in the stores `v`; if the return rules ban an address
   there, in the manager the ban stage shares, no later visit of that address reaches
   the wrapped service before the ban expires, whatever is served in between.
   */
  lemma ReturnBanKeepsOut(s: Site, first: Visit, visits: seq<Visit>, w: World, ip: Ip, until: nat, k: nat)
    returns (response: Response, v: World)
    requires KeepsRunningBans(s.engine) && AnswersRunningBans(s.engine)
    requires s.layer.stage.Some? && s.layer.processor.Some?
    requires s.layer.processor.value.manager == s.layer.stage.value.manager
    requires Visited(s, first, w).Done? && Costs(Visited(s, first, w).exit)
    requires forall j: nat | j < |visits| :: visits[j].now < until
    requires k < |visits| && visits[k].parts.extensions.clientIp == Some(ip) && Guarded(s, visits[k].parts)
    ensures EndsIn(EnvFor(s, first), first.parts, Visited(s, first, w), response, v)
    ensures PassBans(EnvFor(s, first), InputFromParts(first.parts), response, v, ip, until) ==>
      var before := WorldBefore(s, visits, k, WorldOf(Visited(s, first, w)));
      && Visited(s, visits[k], before).Done? && !Reaches(Visited(s, visits[k], before).exit)
      && SameLimits(before, WorldOf(Visited(s, visits[k], before)))
  {
    hide Call, PassBans, KeepsRunningBans, AnswersRunningBans, Guarded, Live, EndsIn;
    response, v := CallEndsInAPass(EnvFor(s, first), first.parts, w);
    if PassBans(EnvFor(s, first), InputFromParts(first.parts), response, v, ip, until) {
      EndingBanLands(EnvFor(s, first), first.parts, Visited(s, first, w), response, v, ip, until);
      RuleBanKeepsOut(s, first, visits, w, ip, until, k);
    }
  }

  lemma EndingBanLands(env: Env, parts: Parts, o: Outcome, response: Response, v: World, ip: Ip, until: nat)
    requires EndsIn(env, parts, o, response, v)
    requires PassBans(env, InputFromParts(parts), response, v, ip, until)
    ensures Live(WorldOf(o), env.layer.processor.value.manager, ip, until)
  {
    hide Pass, PassBans, Live;
    PassBanLands(env, InputFromParts(parts), LaneOf(o.exit), response, v, ip, until);
  }

  /** An excluded path is no way around the return rules: its forward ends in the pass too. */
  lemma ExcludedForwardEndsInAPass(s: Site, v: Visit, w: World, response: Response)
    requires Excluded(s.layer, v.parts)
    requires s.inner.answer(w.received + [Request(v.parts, [])]) == Reply(response)
    ensures WorldOf(Visited(s, v, w)) ==
            Pass(EnvFor(s, v), InputFromFacts(Http.Extract(v.parts)), ForwardedLane, response,
                 w.(received := w.received + [Request(v.parts, [])])).1
  {
    hide Pass, Call;
    FirstArm(EnvFor(s, v), v.parts, w);
  }

  /**
   A service built from the unified configuration: its ban stage and its
   processor hold different managers, so no processor ban reaches the ban stage.
   */
  method ConfiguredManagersDiffer(k: Constructors, c: SecurityConfig) returns (l: Option<GuardLayer>)
    ensures l.None? <==> Refusal(k, c).Some?
    ensures l.Some? ==> l.value.stage.Some?
    ensures l.Some? && (c.securityHeaders || c.cors.Some? || c.globalRules != []) ==>
      && l.value.processor.Some?
      && l.value.stage.value.manager != l.value.processor.value.manager
  {
    var built := FromSecurityConfig(k, c);
    if built.Err? {
      return None;
    }
    var layered := Layered(built.value);
    l := Some(layered);
  }
}
