/**
 Sequences of requests on one guarded service, and the budget they consume: the
 rate-limit tiers are consulted once for every request that passes all earlier
 arms, and by no other request.
 */
module Traffic {
  import opened BodyBuffer
  import opened Engine
  import opened Frames
  import opened Http
  import opened Layer
  import opened Octets
  import opened Pipeline
  import opened Runs
  import opened Wrappers

  /** What stays fixed while requests come and go. */
  datatype Site = Site(engine: Engine, layer: GuardLayer, inner: Inner)

  datatype Visit = Visit(parts: Parts, frames: seq<Frame>, now: nat)

  function EnvFor(s: Site, v: Visit): Env
  {
    Env(s.engine, s.layer, s.inner, v.now, v.frames)
  }

  function WorldOf(o: Outcome): World
  {
    match o
    case Continue(f) => f.world
    case Done(_, w) => w
  }

  function Visited(s: Site, v: Visit, w: World): Outcome
  {
    Call(EnvFor(s, v), v.parts, w)
  }

  /** The world after a list of visits, in order. */
  function Serve(s: Site, visits: seq<Visit>, w: World): World
  {
    if visits == [] then w else Serve(s, visits[1..], WorldOf(Visited(s, visits[0], w)))
  }

  /** The world a visit of the list finds. */
  function WorldBefore(s: Site, visits: seq<Visit>, k: nat, w: World): World
    requires k <= |visits|
  {
    Serve(s, visits[..k], w)
  }

  lemma {:induction false} ServeAppend(s: Site, a: seq<Visit>, b: seq<Visit>, w: World)
    ensures Serve(s, a + b, w) == Serve(s, b, Serve(s, a, w))
  {
    hide Call, WorldOf;
    if a == [] {
      assert a + b == b;
    } else {
      assert (a + b)[0] == a[0] && (a + b)[1..] == a[1..] + b;
      ServeAppend(s, a[1..], b, WorldOf(Visited(s, a[0], w)));
    }
  }

  // ---- the tiers ------------------------------------------------------------------------

  /** The request passed every arm in front of the tiers, on a route that does not bypass them. */
  predicate Consults(env: Env, parts: Parts, w: World)
  {
    && !Excluded(env.layer, parts)
    && Run(BEFORE_FORWARD[..TIERS_AT], env, Start(parts, w)).Continue?
    && env.layer.stage.Some?
    && !Bypassed(RouteOf(env.layer, parts), "rate_limit")
  }

  lemma TierStep(env: Env, f: Flow)
    ensures var o := Step(TierArm, env, f);
      && WorldOf(o).journal.consults == f.world.journal.consults
           + (if env.layer.stage.Some? && !Bypassed(f.route, "rate_limit") then 1 else 0)
      && (env.layer.stage.None? || Bypassed(f.route, "rate_limit") ==> SameLimits(f.world, WorldOf(o)))
      && (o.Continue? ==> o.flow.facts == f.facts)
  {
    hide Finish, StageAnswer, Bypassed, BansKept, RuleBansOnly;
    if env.layer.stage.Some? {
      var (w, answer) := TierDecision(env, f, env.layer.stage.value);
      if answer.Some? { FinishFrame(env, f.(world := w), StageAnswer(answer.value)); }
    }
  }

  /** The arms behind the tiers, and the forward, leave the limits alone. */
  lemma AfterTiers(env: Env, f: Flow)
    requires f.facts.path !in env.layer.excludePaths
    ensures var rest := [ThreatBlock, CustomRequestArm, ForwardArm];
      Run(rest, env, f).Done? && SameLimits(f.world, Run(rest, env, f).world)
  {
    hide Step, ForwardCall;
    var checks := [ThreatBlock, CustomRequestArm];
    assert [ThreatBlock, CustomRequestArm, ForwardArm] == checks + [ForwardArm];
    RunAppend(checks, [ForwardArm], env, f);
    RunFrame(checks, env, f);
    if Run(checks, env, f).Continue? {
      var g := Run(checks, env, f).flow;
      LastArm(env, g);
      ForwardedRequest(env, g, Rebuilt(g.buffered));
    }
  }

  /** The order around the tiers. */
  lemma OrderAroundTiers()
    ensures ORDER == BEFORE_FORWARD[..TIERS_AT] + ([TierArm] + [ThreatBlock, CustomRequestArm, ForwardArm])
    ensures TierArm !in BEFORE_FORWARD[..TIERS_AT] && ForwardArm !in BEFORE_FORWARD[..TIERS_AT]
  {
    Positions();
    forall x | x in BEFORE_FORWARD[..TIERS_AT] ensures x != TierArm && x != ForwardArm {
      var j :| 0 <= j < TIERS_AT && BEFORE_FORWARD[j] == x;
      ArmsAreDistinct(j, TIERS_AT);
    }
  }

  /** From the tiers on. */
  lemma TiersAndAfter(env: Env, f: Flow)
    requires f.facts.path !in env.layer.excludePaths
    ensures var o := Run([TierArm] + [ThreatBlock, CustomRequestArm, ForwardArm], env, f);
      && WorldOf(o).journal.consults == f.world.journal.consults
           + (if env.layer.stage.Some? && !Bypassed(f.route, "rate_limit") then 1 else 0)
      && (env.layer.stage.None? || Bypassed(f.route, "rate_limit") ==> SameLimits(f.world, WorldOf(o)))
  {
    hide Step, Bypassed;
    TierStep(env, f);
    var rest := [ThreatBlock, CustomRequestArm, ForwardArm];
    assert ([TierArm] + rest)[0] == TierArm && ([TierArm] + rest)[1..] == rest;
    if Step(TierArm, env, f).Continue? {
      AfterTiers(env, Step(TierArm, env, f).flow);
    }
  }

  /**
   The limiter frame of one call: the tiers are consulted exactly when the
   request passed everything before them; otherwise the windows, the violation
   counts and the number of consultations are as before.
   */
  lemma ConsultedOnceOrNever(env: Env, parts: Parts, w: World)
    ensures var w' := WorldOf(Call(env, parts, w));
      && w'.journal.consults == w.journal.consults + (if Consults(env, parts, w) then 1 else 0)
      && (!Consults(env, parts, w) ==> SameLimits(w, w'))
  {
    hide Step, ForwardCall, Bypassed;
    var f := Start(parts, w);
    if Excluded(env.layer, parts) {
      ExcludedPathForwardsEmptyBody(env, parts, w);
    } else {
      OrderAroundTiers();
      var front := BEFORE_FORWARD[..TIERS_AT];
      RunAppend(front, [TierArm] + [ThreatBlock, CustomRequestArm, ForwardArm], env, f);
      RunFrame(front, env, f);
      if Run(front, env, f).Continue? {
        PrefixFlow(TIERS_AT, env, parts, w);
        TiersAndAfter(env, Run(front, env, f).flow);
      }
    }
  }

  /** How many visits of the list reach the tiers. */
  function Consultations(s: Site, visits: seq<Visit>, w: World): nat
  {
    if visits == [] then 0
    else (if Consults(EnvFor(s, visits[0]), visits[0].parts, w) then 1 else 0)
         + Consultations(s, visits[1..], WorldOf(Visited(s, visits[0], w)))
  }

  /** The budget of any request sequence: one consultation for each visit that reaches the tiers. */
  lemma {:induction false} BudgetOfTraffic(s: Site, visits: seq<Visit>, w: World)
    ensures Serve(s, visits, w).journal.consults == w.journal.consults + Consultations(s, visits, w)
    ensures Consultations(s, visits, w) == 0 ==> SameLimits(w, Serve(s, visits, w))
  {
    hide Call, Consults;
    if visits != [] {
      ConsultedOnceOrNever(EnvFor(s, visits[0]), visits[0].parts, w);
      BudgetOfTraffic(s, visits[1..], WorldOf(Visited(s, visits[0], w)));
    }
  }

  /** A body that does not buffer consumes no budget. */
  lemma OversizedConsumesNothing(env: Env, parts: Parts, w: World)
    requires Buffer(env.frames, EffectiveCap(env.layer, RouteOf(env.layer, parts))).Err?
    ensures !Consults(env, parts, w)
    ensures SameLimits(w, WorldOf(Call(env, parts, w)))
  {
    hide Step, Call, Run, RouteOf, EffectiveCap, Buffer;
    ConsultedOnceOrNever(env, parts, w);
    if Consults(env, parts, w) {
      SplitAt(BUFFER_AT, TIERS_AT, env, Start(parts, w));
      PrefixFlow(BUFFER_AT, env, parts, w);
      Positions();
      BufferStep(env, Run(BEFORE_FORWARD[..BUFFER_AT], env, Start(parts, w)).flow);
      assert false;
    }
  }
}
