/**
 Where the custom error bodies of the layer show. Two answers read them, the denial
 of the global gate and the block of a threat, and which requests get one of them
 does not depend on the bodies.
 */
module ErrorBodies {
  import opened Admission
  import opened BodyBuffer
  import opened Engine
  import opened Forwarding
  import opened Frames
  import opened Http
  import opened Layer
  import opened Noninterference
  import opened Octets
  import opened Pipeline
  import opened Runs
  import opened Wrappers

  /** The same layer with other custom bodies. */
  function WithErrors(env: Env, errors: map<nat, string>): Env
  {
    env.(layer := env.layer.(customErrors := errors))
  }

  /** The global gate denies the request. */
  ghost predicate GateDenies(env: Env, parts: Parts, w: World)
  {
    Passes(GATE_AT, env, parts, w) && !GateOpen(env, parts)
  }

  /** The finding of the scan blocks the request. */
  ghost predicate ThreatBlocks(env: Env, parts: Parts, w: World)
  {
    Passes(THREAT_AT, env, parts, w) && !ThreatAllowed(env, parts)
  }

  // ---- a pass and the body it runs over --------------------------------------------------------------

  /** A response pass neither reads nor writes the body. */
  lemma PassIgnoresBody(env: Env, errors: map<nat, string>, input: ProcessorInput, lane: Lane, response: Response,
                        body: ResponseBody, w: World)
    ensures var (r, v) := Pass(env, input, lane, response, w);
      Pass(WithErrors(env, errors), input, lane, response.(body := body), w) == (r.(body := body), v)
  {
    hide InsertHeaders;
  }

  /** The body these custom bodies give a status, or the message in its place. */
  function BodyFor(errors: map<nat, string>, status: nat, message: string): string
  {
    if status in errors then errors[status] else message
  }

  /** Two denials that differ in the body alone, each with that of its layer. */
  ghost predicate DenialShows(env: Env, errors: map<nat, string>, o: Outcome, p: Outcome)
  {
    && o.Done? && p.Done? && p.world == o.world && o.exit.GateDenied?
    && BodyText(o.exit.response) == BodyFor(env.layer.customErrors, 403, "Forbidden")
    && p.exit == GateDenied(o.exit.response.(body := Generated(BodyFor(errors, 403, "Forbidden"))))
  }

  /** The same of two threat blocks. */
  ghost predicate ThreatShows(env: Env, errors: map<nat, string>, o: Outcome, p: Outcome)
  {
    && o.Done? && p.Done? && p.world == o.world && o.exit.Blocked?
    && BodyText(o.exit.response) == BodyFor(env.layer.customErrors, 400, "Suspicious activity detected")
    && p.exit == Blocked(o.exit.response.(body := Generated(BodyFor(errors, 400, "Suspicious activity detected"))))
  }

  lemma DenialsDiffer(env: Env, errors: map<nat, string>, f: Flow)
    ensures DenialShows(env, errors, Denial(env, f), Denial(WithErrors(env, errors), f))
  {
    hide Pass;
    var e := WithErrors(env, errors);
    var plain, body := PlainText(403, ErrorBody(env.layer, 403, FORBIDDEN_MESSAGE)),
                       Generated(ErrorBody(e.layer, 403, FORBIDDEN_MESSAGE));
    var input, v := InputFromParts(f.parts), BlockHook(env.layer, f.world);
    PassIgnoresBody(env, errors, input, GeneratedLane, plain, body, v);
    var (r, v1) := Pass(env, input, GeneratedLane, plain, v);
    PassIgnoresBody(env, errors, input, GeneratedLane, r, body, v1);
    DenialBody(env, f);
  }

  lemma ThreatBlocksDiffer(env: Env, errors: map<nat, string>, f: Flow)
    requires env.layer.stage.Some? && f.verdict.Some? && !env.layer.stage.value.knobs.passiveMode
    ensures ThreatShows(env, errors, StepThreat(env, f), StepThreat(WithErrors(env, errors), f))
  {
    hide Pass;
    var e := WithErrors(env, errors);
    var v := BlockHook(env.layer, f.world);
    BlockBody(env, f.(world := v), 400, ErrorBody(env.layer, 400, BLOCKED_MESSAGE));
    PassIgnoresBody(env, errors, InputFromParts(f.parts), GeneratedLane,
                    PlainText(400, ErrorBody(env.layer, 400, BLOCKED_MESSAGE)),
                    Generated(ErrorBody(e.layer, 400, BLOCKED_MESSAGE)), v);
  }

  // ---- the two arms ----------------------------------------------------------------------------------

  /** The gate decides alike under all bodies, and its denial is the one that differs. */
  lemma GateUnderErrors(env: Env, errors: map<nat, string>, f: Flow)
    ensures var o, p := StepGlobalGate(env, f), StepGlobalGate(WithErrors(env, errors), f);
      if o.Continue? then p == o else o == Denial(env, f) && p == Denial(WithErrors(env, errors), f)
  {
    hide Denial, Bypassed;
    DenialBody(env, f);
  }

  lemma ThreatUnderErrors(env: Env, errors: map<nat, string>, f: Flow)
    requires StepThreat(env, f).Continue?
    ensures StepThreat(WithErrors(env, errors), f) == StepThreat(env, f)
  {
    hide Pass;
  }

  // ---- whole calls -----------------------------------------------------------------------------------

  /** Arms that never read the bodies run the same under all of them. */
  lemma BlindRun(arms: seq<Arm>, env: Env, errors: map<nat, string>, f: Flow)
    requires GlobalGate !in arms && ThreatBlock !in arms
    ensures Run(arms, WithErrors(env, errors), f) == Run(arms, env, f)
  {
    hide Run;
    SameRun(arms, Twins(env, WithErrors(env, errors), 0), f);
  }

  /** The same requests get to the gate, with the same flow; a request that does not is answered the same. */
  lemma UpToTheGate(env: Env, errors: map<nat, string>, parts: Parts, w: World)
    ensures var e := WithErrors(env, errors);
      && (Passes(GATE_AT, e, parts, w) <==> Passes(GATE_AT, env, parts, w))
      && (if Passes(GATE_AT, env, parts, w) then FlowAt(GATE_AT, e, parts, w) == FlowAt(GATE_AT, env, parts, w)
          else Call(e, parts, w) == Call(env, parts, w))
  {
    hide Step, Run, Excluded;
    var e, f, front := WithErrors(env, errors), Start(parts, w), BEFORE_FORWARD[..GATE_AT];
    assert front == [ExcludedPath, Preflight, ResolveRoute, UsageRules, RouteIps, RouteCountries];
    BlindRun(front, env, errors, f);
    ExcludedAlike(env, errors, parts);
    if Excluded(env.layer, parts) {
      FirstArm(env, parts, w);
      FirstArm(e, parts, w);
      ForwardUnderErrors(env, errors, f, []);
    } else if Run(front, env, f).Done? {
      assert ORDER == front + ORDER[GATE_AT..];
      RunAppend(front, ORDER[GATE_AT..], env, f);
      RunAppend(front, ORDER[GATE_AT..], e, f);
    }
  }

  lemma ExcludedAlike(env: Env, errors: map<nat, string>, parts: Parts)
    ensures Excluded(WithErrors(env, errors).layer, parts) == Excluded(env.layer, parts)
  {
  }

  lemma ForwardUnderErrors(env: Env, errors: map<nat, string>, f: Flow, body: Octets)
    ensures ForwardCall(WithErrors(env, errors), f, body) == ForwardCall(env, f, body)
  {
    hide ForwardCall;
    var t := Twins(env, WithErrors(env, errors), 0);
    ForwardAlike(t, f, f, body);
    ForwardedRequest(env, f, body);
    CloseIsSame(t, ForwardCall(t.a, f, body), ForwardCall(t.b, f, body));
  }

  /** A gate that denies denies under all bodies; the denials differ in nothing else. */
  lemma UnderDenial(env: Env, errors: map<nat, string>, parts: Parts, w: World)
    requires GateDenies(env, parts, w)
    ensures DenialShows(env, errors, Call(env, parts, w), Call(WithErrors(env, errors), parts, w))
  {
    hide Call, Step, StepGlobalGate, Run, Denial, GateOpen, ErrorBody, DenialShows;
    var e, f := WithErrors(env, errors), FlowAt(GATE_AT, env, parts, w);
    UpToTheGate(env, errors, parts, w);
    CallFrom(GATE_AT, env, parts, w);
    CallFrom(GATE_AT, e, parts, w);
    Positions();
    DispatchEnds(env, f);
    DispatchEnds(e, f);
    GateStandsAsSaid(env, parts, w);
    GateUnderErrors(env, errors, f);
    DenialsDiffer(env, errors, f);
    DenialBody(e, f);
  }

  /** The gate lets the request pass exactly when it is open. */
  lemma GateStandsAsSaid(env: Env, parts: Parts, w: World)
    requires Passes(GATE_AT, env, parts, w)
    ensures Step(GlobalGate, env, FlowAt(GATE_AT, env, parts, w)).Continue? <==> GateOpen(env, parts)
  {
    hide Step, Run, GateOpen, RouteTakesOver, RouteOf;
    PrefixFlow(GATE_AT, env, parts, w);
    FlowAtGate(env, parts, w);
    GateArm(env, FlowAt(GATE_AT, env, parts, w), parts);
  }

  /** Through an open gate the runs are the same up to the threat. */
  lemma UpToTheThreat(env: Env, errors: map<nat, string>, parts: Parts, w: World)
    requires Passes(GATE_AT, env, parts, w) && GateOpen(env, parts)
    ensures Run(BEFORE_FORWARD[..THREAT_AT], WithErrors(env, errors), Start(parts, w))
            == Run(BEFORE_FORWARD[..THREAT_AT], env, Start(parts, w))
  {
    hide Step, StepGlobalGate, GateOpen;
    var e, f := WithErrors(env, errors), Start(parts, w);
    var front, mid := BEFORE_FORWARD[..GATE_AT], BEFORE_FORWARD[GATE_AT + 1..THREAT_AT];
    var g := FlowAt(GATE_AT, env, parts, w);
    AroundTheGate();
    UpToTheGate(env, errors, parts, w);
    RunAppend(front, [GlobalGate] + mid, env, f);
    RunAppend(front, [GlobalGate] + mid, e, f);
    RunFirst(GlobalGate, mid, env, g);
    RunFirst(GlobalGate, mid, e, g);
    DispatchEnds(env, g);
    DispatchEnds(e, g);
    GateStandsAsSaid(env, parts, w);
    GateUnderErrors(env, errors, g);
    BlindRun(mid, env, errors, Step(GlobalGate, env, g).flow);
  }

  lemma AroundTheGate()
    ensures BEFORE_FORWARD[..THREAT_AT] ==
            BEFORE_FORWARD[..GATE_AT] + ([GlobalGate] + BEFORE_FORWARD[GATE_AT + 1..THREAT_AT])
    ensures GlobalGate !in BEFORE_FORWARD[GATE_AT + 1..THREAT_AT]
    ensures ThreatBlock !in BEFORE_FORWARD[GATE_AT + 1..THREAT_AT]
  {
    var mid := BEFORE_FORWARD[GATE_AT + 1..THREAT_AT];
    forall k: nat | k < |mid| ensures mid[k] != GlobalGate && mid[k] != ThreatBlock {
      ArmStandsInPlace(k + GATE_AT + 1);
    }
  }

  /** A stage has been built and asked before a threat is looked at. */
  lemma ThreatStandsAsSaid(env: Env, parts: Parts, w: World)
    requires Passes(THREAT_AT, env, parts, w)
    ensures env.layer.stage.Some? && FlowAt(THREAT_AT, env, parts, w).verdict == FindingOf(env, parts)
    ensures Step(ThreatBlock, env, FlowAt(THREAT_AT, env, parts, w)).Continue? <==> ThreatAllowed(env, parts)
  {
    hide Step, Run, FindingOf;
    FindingAt(THREAT_AT, env, parts, w);
    ThreatPasses(env, FlowAt(THREAT_AT, env, parts, w));
    PassedAt(TIERS_AT, THREAT_AT, env, parts, w);
    Positions();
    TiersNeedTheStage(env, FlowAt(TIERS_AT, env, parts, w));
  }

  lemma TiersNeedTheStage(env: Env, f: Flow)
    requires Step(TierArm, env, f).Continue?
    ensures env.layer.stage.Some?
  {
    hide Finish, TierDecision;
  }

  /** What other bodies make of a call that gets through the gate. */
  ghost predicate ThreatAlone(env: Env, errors: map<nat, string>, parts: Parts, w: World)
  {
    var o, p := Call(env, parts, w), Call(WithErrors(env, errors), parts, w);
    if ThreatBlocks(env, parts, w) then ThreatShows(env, errors, o, p) else p == o
  }

  /** Behind the gate the calls are the same, but where a threat blocks. */
  lemma BehindTheGate(env: Env, errors: map<nat, string>, parts: Parts, w: World)
    requires Passes(GATE_AT, env, parts, w) && GateOpen(env, parts)
    ensures ThreatAlone(env, errors, parts, w)
  {
    hide Step, Run, GateOpen, ThreatAllowed, ThreatShows;
    var e, f := WithErrors(env, errors), Start(parts, w);
    UpToTheThreat(env, errors, parts, w);
    if Run(BEFORE_FORWARD[..THREAT_AT], env, f).Done? {
      assert ORDER == BEFORE_FORWARD[..THREAT_AT] + ORDER[THREAT_AT..];
      RunAppend(BEFORE_FORWARD[..THREAT_AT], ORDER[THREAT_AT..], env, f);
      RunAppend(BEFORE_FORWARD[..THREAT_AT], ORDER[THREAT_AT..], e, f);
    } else if ThreatAllowed(env, parts) {
      PastTheThreat(env, errors, parts, w);
    } else {
      AtTheThreat(env, errors, parts, w);
    }
  }

  lemma LastArmsAreBlind(env: Env, errors: map<nat, string>, f: Flow)
    ensures Run(ORDER[THREAT_AT + 1..], WithErrors(env, errors), f) == Run(ORDER[THREAT_AT + 1..], env, f)
  {
    hide Run;
    assert ORDER[THREAT_AT + 1..] == [CustomRequestArm, ForwardArm];
    BlindRun([CustomRequestArm, ForwardArm], env, errors, f);
  }

  lemma PastTheThreat(env: Env, errors: map<nat, string>, parts: Parts, w: World)
    requires Passes(THREAT_AT, env, parts, w) && Passes(THREAT_AT, WithErrors(env, errors), parts, w)
    requires FlowAt(THREAT_AT, WithErrors(env, errors), parts, w) == FlowAt(THREAT_AT, env, parts, w)
    requires ThreatAllowed(env, parts)
    ensures Call(WithErrors(env, errors), parts, w) == Call(env, parts, w)
  {
    hide Call, Passes, Step, StepThreat, Run, FlowAt, ThreatAllowed;
    var e, f := WithErrors(env, errors), FlowAt(THREAT_AT, env, parts, w);
    CallFrom(THREAT_AT, env, parts, w);
    CallFrom(THREAT_AT, e, parts, w);
    Positions();
    ThreatStandsAsSaid(env, parts, w);
    DispatchSettlement(env, f);
    DispatchSettlement(e, f);
    ThreatUnderErrors(env, errors, f);
    LastArmsAreBlind(env, errors, StepThreat(env, f).flow);
  }

  lemma AtTheThreat(env: Env, errors: map<nat, string>, parts: Parts, w: World)
    requires Passes(THREAT_AT, env, parts, w) && Passes(THREAT_AT, WithErrors(env, errors), parts, w)
    requires FlowAt(THREAT_AT, WithErrors(env, errors), parts, w) == FlowAt(THREAT_AT, env, parts, w)
    requires !ThreatAllowed(env, parts)
    ensures ThreatShows(env, errors, Call(env, parts, w), Call(WithErrors(env, errors), parts, w))
  {
    hide Call, Passes, Step, StepThreat, Run, FlowAt, ThreatShows, FindingOf;
    var e, f := WithErrors(env, errors), FlowAt(THREAT_AT, env, parts, w);
    CallFrom(THREAT_AT, env, parts, w);
    CallFrom(THREAT_AT, e, parts, w);
    Positions();
    ThreatStandsAsSaid(env, parts, w);
    DispatchSettlement(env, f);
    DispatchSettlement(e, f);
    ThreatBlocksDiffer(env, errors, f);
    ThreatShowsEnds(env, errors, StepThreat(env, f), StepThreat(e, f));
  }

  lemma ThreatShowsEnds(env: Env, errors: map<nat, string>, o: Outcome, p: Outcome)
    requires ThreatShows(env, errors, o, p)
    ensures o.Done? && p.Done?
  {
  }

  /**
   Exactly where the custom bodies of the layer show. Where the gate denies or a
   threat blocks, other bodies give the same exit in the same stores with the same
   status and headers and their own body; every other call is the same to the last
   store. (The rate-limit stage has its own copy of the bodies in its knobs.)
   */
  lemma CustomBodiesExactly(env: Env, errors: map<nat, string>, parts: Parts, w: World)
    ensures var o, p := Call(env, parts, w), Call(WithErrors(env, errors), parts, w);
      if GateDenies(env, parts, w) then DenialShows(env, errors, o, p)
      else if ThreatBlocks(env, parts, w) then ThreatShows(env, errors, o, p)
      else p == o
  {
    hide Call, Passes, FlowAt, GateOpen, ThreatAllowed, DenialShows, ThreatShows;
    UpToTheGate(env, errors, parts, w);
    if GateDenies(env, parts, w) {
      UnderDenial(env, errors, parts, w);
    } else if Passes(GATE_AT, env, parts, w) {
      BehindTheGate(env, errors, parts, w);
    } else if Passes(THREAT_AT, env, parts, w) {
      PassedAt(GATE_AT, THREAT_AT, env, parts, w);
    }
  }

  /**
   And they do show there: a call is the same under all custom bodies if and only if
   neither the gate denies it nor a threat blocks it.
   */
  lemma CustomBodiesMatterExactly(env: Env, parts: Parts, w: World)
    ensures (forall errors: map<nat, string> :: Call(WithErrors(env, errors), parts, w) == Call(env, parts, w))
            <==> !GateDenies(env, parts, w) && !ThreatBlocks(env, parts, w)
  {
    hide Call, GateDenies, ThreatBlocks;
    forall errors: map<nat, string>
      ensures !GateDenies(env, parts, w) && !ThreatBlocks(env, parts, w) ==>
                Call(WithErrors(env, errors), parts, w) == Call(env, parts, w)
    {
      CustomBodiesExactly(env, errors, parts, w);
    }
    var forbidden := BodyFor(env.layer.customErrors, 403, "Forbidden");
    var blocked := BodyFor(env.layer.customErrors, 400, "Suspicious activity detected");
    CustomBodiesExactly(env, map[403 := forbidden + "!", 400 := blocked + "!"], parts, w);
  }

  // ---- the block hook --------------------------------------------------------------------------------

  lemma HooksOfARun(arms: seq<Arm>, env: Env, f: Flow)
    requires GlobalGate !in arms && ThreatBlock !in arms && ForwardArm !in arms
    requires f.facts.path !in env.layer.excludePaths || ExcludedPath !in arms
    ensures match Run(arms, env, f)
            case Continue(g) => g.world.journal.blockHooks == f.world.journal.blockHooks
            case Done(_, v) => v.journal.blockHooks == f.world.journal.blockHooks
  {
    hide Run, SameLimits;
    RunFrame(arms, env, f);
  }

  lemma ThreatReports(env: Env, f: Flow)
    requires env.layer.stage.Some?
    ensures match StepThreat(env, f)
            case Continue(g) => g == f
            case Done(_, v) => v.journal.blockHooks == f.world.journal.blockHooks + HookCost(env.layer)
  {
    hide Block, BansKept, RuleBansOnly, SameLimits;
    BlockFrame(env, f.(world := BlockHook(env.layer, f.world)), 400, ErrorBody(env.layer, 400, BLOCKED_MESSAGE));
  }

  lemma LastArmsReportNothing(env: Env, f: Flow)
    ensures match Run(ORDER[THREAT_AT + 1..], env, f)
            case Continue(g) => g.world.journal.blockHooks == f.world.journal.blockHooks
            case Done(_, v) => v.journal.blockHooks == f.world.journal.blockHooks
  {
    hide Step, Run, ForwardCall, SameLimits;
    assert ORDER[THREAT_AT + 1..] == [CustomRequestArm] + [ForwardArm];
    RunAppend([CustomRequestArm], [ForwardArm], env, f);
    HooksOfARun([CustomRequestArm], env, f);
    if Run([CustomRequestArm], env, f).Continue? {
      var g := Run([CustomRequestArm], env, f).flow;
      LastArm(env, g);
      ForwardedRequest(env, g, Rebuilt(g.buffered));
    }
  }

  /** What the call reports on its way to the threat, if the gate lets it through. */
  lemma HooksBeforeTheThreat(env: Env, parts: Parts, w: World)
    requires Passes(GATE_AT, env, parts, w) && GateOpen(env, parts)
    ensures match Run(BEFORE_FORWARD[..THREAT_AT], env, Start(parts, w))
            case Continue(g) => g.world.journal.blockHooks == w.journal.blockHooks
            case Done(_, v) => v.journal.blockHooks == w.journal.blockHooks
  {
    hide Step, StepGlobalGate, GateOpen, SameLimits;
    var f, g := Start(parts, w), FlowAt(GATE_AT, env, parts, w);
    var front, mid := BEFORE_FORWARD[..GATE_AT], BEFORE_FORWARD[GATE_AT + 1..THREAT_AT];
    AroundTheGate();
    FrontReportsNothing(env, parts, w);
    RunAppend(front, [GlobalGate] + mid, env, f);
    RunFirst(GlobalGate, mid, env, g);
    DispatchEnds(env, g);
    GateStandsAsSaid(env, parts, w);
    GatePassesQuietly(env, g);
    MidIsQuiet();
    HooksOfARun(mid, env, Step(GlobalGate, env, g).flow);
  }

  lemma MidIsQuiet()
    ensures ForwardArm !in BEFORE_FORWARD[GATE_AT + 1..THREAT_AT]
    ensures ExcludedPath !in BEFORE_FORWARD[GATE_AT + 1..THREAT_AT]
  {
    var mid := BEFORE_FORWARD[GATE_AT + 1..THREAT_AT];
    forall k: nat | k < |mid| ensures mid[k] != ForwardArm && mid[k] != ExcludedPath {
      ArmStandsInPlace(k + GATE_AT + 1);
    }
  }

  lemma GatePassesQuietly(env: Env, f: Flow)
    requires StepGlobalGate(env, f).Continue?
    ensures StepGlobalGate(env, f).flow.world == f.world
  {
    hide Denial;
    DenialBody(env, f);
  }

  lemma FrontReportsNothing(env: Env, parts: Parts, w: World)
    requires !Excluded(env.layer, parts)
    ensures match Run(BEFORE_FORWARD[..GATE_AT], env, Start(parts, w))
            case Continue(g) => g.world.journal.blockHooks == w.journal.blockHooks
            case Done(_, v) => v.journal.blockHooks == w.journal.blockHooks
  {
    hide Run;
    assert BEFORE_FORWARD[..GATE_AT] == [ExcludedPath, Preflight, ResolveRoute, UsageRules, RouteIps, RouteCountries];
    HooksOfARun(BEFORE_FORWARD[..GATE_AT], env, Start(parts, w));
  }

  lemma DenialReports(env: Env, parts: Parts, w: World)
    requires GateDenies(env, parts, w)
    ensures var o := Call(env, parts, w);
      o.Done? && o.world.journal.blockHooks == w.journal.blockHooks + HookCost(env.layer)
  {
    hide Call, Step, StepGlobalGate, Run, Denial, GateOpen, BansKept, RuleBansOnly, SameLimits;
    var f := FlowAt(GATE_AT, env, parts, w);
    FrontReportsNothing(env, parts, w);
    CallFrom(GATE_AT, env, parts, w);
    Positions();
    DispatchEnds(env, f);
    GateStandsAsSaid(env, parts, w);
    GateUnderErrors(env, env.layer.customErrors, f);
    DenialFrame(env, f);
  }

  lemma ReportsFromTheThreat(env: Env, parts: Parts, w: World)
    requires Passes(THREAT_AT, env, parts, w)
    ensures var o, before := Call(env, parts, w), FlowAt(THREAT_AT, env, parts, w).world.journal.blockHooks;
      o.Done? && o.world.journal.blockHooks == before + (if ThreatAllowed(env, parts) then 0 else HookCost(env.layer))
  {
    hide Call, Passes, Step, StepThreat, Run, FlowAt, ThreatAllowed, FindingOf, HookCost;
    var f := FlowAt(THREAT_AT, env, parts, w);
    CallFrom(THREAT_AT, env, parts, w);
    CallAnswers(env, parts, w);
    Positions();
    ThreatStandsAsSaid(env, parts, w);
    DispatchSettlement(env, f);
    ThreatReports(env, f);
    if StepThreat(env, f).Continue? { LastArmsReportNothing(env, StepThreat(env, f).flow); }
  }

  /**
   The block hook hears exactly of what the custom bodies show in: once of a gate
   denial or of a blocked threat, where there is a hook and the log knobs it needs,
   and of nothing else, whatever answers the call.
   */
  lemma BlockHookHearsExactly(env: Env, parts: Parts, w: World)
    ensures var o := Call(env, parts, w);
      && o.Done?
      && o.world.journal.blockHooks ==
         w.journal.blockHooks
         + (if (GateDenies(env, parts, w) || ThreatBlocks(env, parts, w))
               && env.layer.onBlock.Some? && env.layer.observability.Some? then 1 else 0)
  {
    hide Call, Step, Run, GateOpen, ThreatAllowed, SameLimits;
    CallAnswers(env, parts, w);
    if Excluded(env.layer, parts) {
      FirstArm(env, parts, w);
      ForwardedRequest(env, Start(parts, w), []);
    } else if Passes(GATE_AT, env, parts, w) {
      ReportsBehindTheFront(env, parts, w);
    } else {
      FrontReportsNothing(env, parts, w);
      assert ORDER == BEFORE_FORWARD[..GATE_AT] + ORDER[GATE_AT..];
      RunAppend(BEFORE_FORWARD[..GATE_AT], ORDER[GATE_AT..], env, Start(parts, w));
      NeverAtTheThreat(env, parts, w);
      CallIsRun(env, parts, w);
    }
  }

  lemma CallIsRun(env: Env, parts: Parts, w: World)
    ensures Call(env, parts, w) == Run(ORDER, env, Start(parts, w))
  {
  }

  lemma NeverAtTheThreat(env: Env, parts: Parts, w: World)
    requires !Passes(GATE_AT, env, parts, w)
    ensures !Passes(THREAT_AT, env, parts, w)
  {
    hide Passes;
    if Passes(THREAT_AT, env, parts, w) { PassedAt(GATE_AT, THREAT_AT, env, parts, w); }
  }

  lemma ReportsBehindTheFront(env: Env, parts: Parts, w: World)
    requires Passes(GATE_AT, env, parts, w)
    ensures var o := Call(env, parts, w);
      && o.Done?
      && o.world.journal.blockHooks ==
         w.journal.blockHooks
         + (if GateDenies(env, parts, w) || ThreatBlocks(env, parts, w) then HookCost(env.layer) else 0)
  {
    hide Step, Run, GateOpen, ThreatAllowed, SameLimits, HookCost;
    if !GateOpen(env, parts) {
      DenialReports(env, parts, w);
    } else {
      HooksBeforeTheThreat(env, parts, w);
      if Run(BEFORE_FORWARD[..THREAT_AT], env, Start(parts, w)).Done? {
        assert ORDER == BEFORE_FORWARD[..THREAT_AT] + ORDER[THREAT_AT..];
        RunAppend(BEFORE_FORWARD[..THREAT_AT], ORDER[THREAT_AT..], env, Start(parts, w));
      } else {
        ReportsFromTheThreat(env, parts, w);
      }
    }
  }
}
