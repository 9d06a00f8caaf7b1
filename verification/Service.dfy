/**
 The guarded service of `src/service.rs` on the heap. The limiter, the ban
 managers, the counters and the tracker are objects that layers, stages and
 processors share; a call works with mutable locals and leaves early. Every
 method is proved against the state machine of `Pipeline`.
 */
module Service {
  import opened Authority
  import opened BodyBuffer
  import opened Engine
  import opened Http
  import opened Layer
  import opened Octets
  import opened Pipeline
  import opened Traffic
  import opened Wrappers

  /** The wrapped service: it remembers what it was called with. */
  class InnerService {
    const answer: seq<Request> -> InnerReply
    var received: seq<Request>

    constructor (answer: seq<Request> -> InnerReply)
      ensures this.answer == answer && received == []
    {
      this.answer := answer;
      received := [];
    }

    method Call(request: Request) returns (reply: InnerReply)
      modifies this
      ensures received == old(received) + [request]
      ensures reply == answer(received)
    {
      received := received + [request];
      reply := answer(received);
    }
  }

  /** The private states of the prebuilt stages. */
  class StageMemory {
    var states: StageStates

    constructor (states: StageStates)
      ensures this.states == states
    {
      this.states := states;
    }
  }

  /** What the guard did, for the accounting theorems only. */
  class GuardJournal {
    ghost var counts: Journal

    constructor ()
      ensures counts == Journal(0, 0, 0, 0, 0)
    {
      counts := Journal(0, 0, 0, 0, 0);
    }
  }

  /** The locals one call mutates. */
  datatype Locals = Locals(
    parts: Parts, facts: Facts, route: Option<RouteConfig>, skipIpLists: bool, skipCountries: bool,
    buffered: Option<Octets>, verdict: Option<ThreatFinding>, tiers: Option<RouteRateLimits>)

  function FlowOf(l: Locals, w: World): Flow
  {
    Flow(l.parts, l.facts, l.route, l.skipIpLists, l.skipCountries, l.buffered, l.verdict, l.tiers, w)
  }

  /** A part of the call amounts to this outcome: an answer, or the locals to go on with. */
  ghost predicate Yields(o: Outcome, answer: Option<Exit>, l: Locals, w: World)
  {
    o == if answer.Some? then Done(answer.value, w) else Continue(FlowOf(l, w))
  }

  class GuardService {
    const engine: Engine
    const layer: GuardLayer
    const stage: RateLimitStage
    const inner: InnerService
    const memory: StageMemory
    const journal: GuardJournal

    /** The stage is the one the layer was given when it wrapped the service. */
    ghost predicate Valid()
    {
      layer.stage == Some(stage)
    }

    constructor (engine: Engine, layer: GuardLayer, inner: InnerService, memory: StageMemory)
      requires layer.stage.Some?
      ensures Valid()
      ensures this.engine == engine && this.layer == layer && this.inner == inner && this.memory == memory
      ensures fresh(journal)
    {
      this.engine := engine;
      this.layer := layer;
      this.stage := layer.stage.value;
      this.inner := inner;
      this.memory := memory;
      this.journal := new GuardJournal();
    }

    function Managers(): set<IpBanManager>
    {
      {stage.manager} + (if layer.processor.Some? then {layer.processor.value.manager} else {})
    }

    function Trackers(): set<BehaviorTracker>
    {
      if layer.processor.Some? then {layer.processor.value.tracker} else {}
    }

    /** Every object a call may write. */
    function Objects(): set<object>
    {
      {stage.limiter, stage.counters, inner, memory, journal} + Managers() + Trackers()
    }

    /** The stores as one value: one ban table for each manager object. */
    ghost function State(): World
      reads Objects()
    {
      World(stage.limiter.windows, stage.counters.counts, (map m | m in Managers() :: m.table),
            if layer.processor.Some? then layer.processor.value.tracker.state else "",
            memory.states, inner.received, journal.counts)
    }

    ghost function EnvAt(now: nat, frames: seq<Frame>): Env
    {
      Env(engine, layer, Inner(inner.answer), now, frames)
    }

    // ---- the response pass -----------------------------------------------------------------

    method WriteProcessorStores(p: ResponseProcessor, state: BehaviorState)
      requires layer.processor == Some(p)
      modifies p.manager, p.tracker
      ensures State() == WithBans(old(State()), p.manager, state.bans).(tracker := state.tracker)
    {
      p.manager.table := state.bans;
      p.tracker.state := state.tracker;
      ghost var before, after := old(State()).bans, State().bans;
      assert after == before[p.manager := state.bans];
    }

    ghost method Note(counts: Journal)
      modifies journal
      ensures State() == old(State()).(journal := counts)
    {
      journal.counts := counts;
      assert State().bans == old(State()).bans;
    }

    /** The processor runs over the request bits and the response status. */
    method RunProcessor(p: ResponseProcessor, input: ProcessorInput, status: U16, now: nat, ghost frames: seq<Frame>)
      returns (bits: ResponseBits)
      requires layer.processor == Some(p)
      modifies p.manager, p.tracker, journal
      ensures (State(), bits) == Processed(EnvAt(now, frames), p, input, status, old(State()))
    {
      var (state, view) := engine.process(
        p.knobs, BehaviorState(p.tracker.state, p.manager.table), now,
        RequestBits(input.verb, input.urlPath, input.clientIp, input.origin), status);
      WriteProcessorStores(p, state);
      Note(State().journal.(passes := State().journal.passes + 1));
      bits := view;
    }

    ghost method FireHeaderEvent(p: ResponseProcessor, lane: Lane)
      modifies journal
      ensures State() == HeaderEvent(layer, p, lane, old(State()))
    {
      Note(HeaderEvent(layer, p, lane, State()).journal);
    }

    /** The modifier may rewrite the view; when it panics the view stays and the error hook hears of it. */
    method RunModifier(view: ResponseBits) returns (bits: ResponseBits)
      modifies journal
      ensures (State(), bits) == Modified(layer, view, old(State()))
    {
      bits := view;
      if layer.responseModifier.Some? {
        var outcome := layer.responseModifier.value.run(view);
        if outcome.Some? {
          bits := outcome.value;
        } else if layer.onError.Some? {
          Note(State().journal.(errorHooks := State().journal.errorHooks + 1));
        }
      }
    }

    /** `apply_response_processor` with the status write of its callers, on a response in place. */
    method ApplyResponseProcessor(input: ProcessorInput, lane: Lane, response: Response, now: nat, ghost frames: seq<Frame>)
      returns (r: Response)
      modifies Objects()
      ensures (r, State()) == Pass(EnvAt(now, frames), input, lane, response, old(State()))
    {
      hide InsertHeaders, Processed, Modified, HeaderEvent;
      r := response;
      if layer.processor.Some? {
        var p := layer.processor.value;
        var bits := RunProcessor(p, input, response.status, now, frames);
        FireHeaderEvent(p, lane);
        bits := RunModifier(bits);
        var headers := InsertPairs(response.headers, bits.headers);
        r := r.(headers := headers);
        if ValidStatus(bits.status) {
          r := r.(status := bits.status);
        }
      }
    }

    /** The header loop: a pair that is no header is skipped. */
    method InsertPairs(headers: map<string, FieldValue>, pairs: seq<(string, string)>)
      returns (r: map<string, FieldValue>)
      ensures r == InsertHeaders(engine, headers, pairs)
    {
      r := headers;
      var k := 0;
      while k < |pairs|
        invariant 0 <= k <= |pairs|
        invariant InsertHeaders(engine, r, pairs[k..]) == InsertHeaders(engine, headers, pairs)
      {
        var entry := engine.headerEntry(pairs[k].0, pairs[k].1);
        assert pairs[k..][0] == pairs[k] && pairs[k..][1..] == pairs[k + 1..];
        if entry.Some? {
          r := r[entry.value.0 := Text(entry.value.1)];
        }
        k := k + 1;
      }
    }

    /** `finish_generated`. */
    method FinishGenerated(l: Locals, response: Response, now: nat, ghost frames: seq<Frame>) returns (answer: Option<Exit>)
      modifies Objects()
      ensures answer.Some? && answer.value.Blocked?
      ensures Finish(EnvAt(now, frames), FlowOf(l, old(State())), response) == Done(answer.value, State())
    {
      hide Pass;
      var r := ApplyResponseProcessor(InputFromParts(l.parts), GeneratedLane, response, now, frames);
      answer := Some(Blocked(r));
    }

    /** `block_response`. */
    method BlockResponse(l: Locals, status: U16, body: string, now: nat, ghost frames: seq<Frame>)
      returns (answer: Option<Exit>)
      modifies Objects()
      ensures answer.Some?
      ensures Block(EnvAt(now, frames), FlowOf(l, old(State())), status, body) == Done(answer.value, State())
    {
      hide Finish;
      if !ValidStatus(status) {
        return Some(Panicked);
      }
      answer := FinishGenerated(l, PlainText(status, body), now, frames);
    }

    method FailureResponse(l: Locals, now: nat, ghost frames: seq<Frame>) returns (answer: Option<Exit>)
      modifies Objects()
      ensures answer.Some?
      ensures Fail(EnvAt(now, frames), FlowOf(l, old(State()))) == Done(answer.value, State())
    {
      hide Finish;
      answer := FinishGenerated(l, Http.Failure(), now, frames);
    }

    /** Replace the private state of the stages. */
    method Remember(states: StageStates)
      modifies memory
      ensures State() == old(State()).(stages := states)
    {
      memory.states := states;
      assert State().bans == old(State()).bans;
    }

    ghost method FireBlockHook()
      modifies journal
      ensures State() == BlockHook(layer, old(State()))
    {
      Note(BlockHook(layer, State()).journal);
    }

    /** The excluded paths bypass the whole pipeline. */
    method ExcludedPathArm(start: Locals, now: nat, ghost frames: seq<Frame>) returns (answer: Option<Exit>, l: Locals)
      requires Valid()
      modifies Objects()
      ensures Yields(StepExcludedPath(EnvAt(now, frames), FlowOf(start, old(State()))), answer, l, State())
    {
      hide Finish, Block, Fail, Pass, ForwardCall;
      answer, l := None, start;
      if l.facts.path in layer.excludePaths {
        answer := Forward(l, [], now, frames);
      }
    }

    /** `forward`: call the wrapped service, then run the response pass over its answer. */
    method Forward(l: Locals, body: Octets, now: nat, ghost frames: seq<Frame>) returns (answer: Option<Exit>)
      modifies Objects()
      ensures answer.Some? && Reaches(answer.value)
      ensures ForwardCall(EnvAt(now, frames), FlowOf(l, old(State())), body) == Done(answer.value, State())
    {
      hide Pass;
      var reply := inner.Call(Request(l.parts, body));
      assert State().bans == old(State()).bans;
      assert State() == old(State()).(received := old(State()).received + [Request(l.parts, body)]);
      match reply {
        case Failed(error) => answer := Some(InnerError(error));
        case Reply(response) =>
          var r := ApplyResponseProcessor(InputFromFacts(l.facts), ForwardedLane, response, now, frames);
          answer := Some(Forwarded(r));
      }
    }

    /** A CORS preflight is answered before every check and without a response pass. */
    method PreflightArm(start: Locals, now: nat, ghost frames: seq<Frame>) returns (answer: Option<Exit>, l: Locals)
      requires Valid()
      modifies Objects()
      ensures Yields(StepPreflight(EnvAt(now, frames), FlowOf(start, old(State()))), answer, l, State())
    {
      hide Finish, Block, Fail, Pass, InsertHeaders, PreflightPairs, FindPair, EqIgnoreCase;
      answer, l := None, start;
      if EqIgnoreCase(l.facts.verb, "OPTIONS") && layer.processor.Some? && layer.processor.value.knobs.cors.Some?
         && layer.processor.value.knobs.cors.value.enabled {
        var pairs := PreflightPairs(l.parts.headers);
        if engine.isPreflight(l.parts.verb, pairs) {
          var a := engine.buildPreflight(
            layer.processor.value.knobs.cors.value, FindPair(pairs, "origin"),
            FindPair(pairs, REQUEST_METHOD_HEADER), FindPair(pairs, REQUEST_HEADERS_HEADER));
          if !ValidStatus(a.status) {
            answer := Some(Panicked);
          } else {
            var plain := PlainText(a.status, a.body);
            var headers := InsertPairs(plain.headers, a.headers);
            answer := Some(Preflighted(plain.(headers := headers)));
          }
        }
      }
    }

    method ResolveRouteArm(start: Locals, now: nat, ghost frames: seq<Frame>) returns (answer: Option<Exit>, l: Locals)
      requires Valid()
      modifies Objects()
      ensures Yields(StepResolveRoute(EnvAt(now, frames), FlowOf(start, old(State()))), answer, l, State())
    {
      hide Finish, Block, Fail, Pass;
      answer, l := None, start;
      if l.parts.extensions.route.Some? {
        l := l.(route := l.parts.extensions.route);
      } else if layer.routeConfigs.Some? {
        l := l.(route := layer.routeConfigs.value.resolve(l.facts.verb, l.facts.path));
      } else {
        l := l.(route := None);
      }
    }

    /** The behavior rules of the route; a ban lands in the processor's manager. */
    method UsageRulesArm(start: Locals, now: nat, ghost frames: seq<Frame>) returns (answer: Option<Exit>, l: Locals)
      requires Valid()
      modifies Objects()
      ensures Yields(StepUsageRules(EnvAt(now, frames), FlowOf(start, old(State()))), answer, l, State())
    {
      hide Finish, Block, Fail, Pass;
      answer, l := None, start;
      if l.route.Some? && l.route.value.behaviorRules != [] && layer.processor.Some? {
        var p := layer.processor.value;
        var (state, banned) := engine.usageRules(
          p.knobs, BehaviorState(p.tracker.state, p.manager.table), now,
          l.facts.verb + ":" + l.facts.path, l.facts.ipString, l.route.value.behaviorRules);
        WriteProcessorStores(p, state);
        if banned {
          answer := BlockResponse(l, 403, ACTIVITY_BANNED_MESSAGE, now, frames);
        }
      }
    }

    method RouteIpsArm(start: Locals, now: nat, ghost frames: seq<Frame>) returns (answer: Option<Exit>, l: Locals)
      requires Valid()
      modifies Objects()
      ensures Yields(StepRouteIps(EnvAt(now, frames), FlowOf(start, old(State()))), answer, l, State())
    {
      hide Finish, Block, Fail, Pass, Bypassed;
      answer, l := None, start;
      if !Bypassed(l.route, "ip") && l.route.Some?
         && (l.route.value.ipWhitelist.Some? || l.route.value.ipBlacklist.Some?) {
        var gate := engine.parseRouteIps(l.route.value.ipWhitelist, l.route.value.ipBlacklist);
        if gate.None? {
          answer := FailureResponse(l, now, frames);
        } else if l.facts.ip.Some? && gate.value.denies(l.facts.ip.value) {
          answer := BlockResponse(l, 403, FORBIDDEN_MESSAGE, now, frames);
        } else {
          l := l.(skipIpLists := gate.value.whitelistConfigured);
        }
      }
    }

    method RouteCountriesArm(start: Locals, now: nat, ghost frames: seq<Frame>) returns (answer: Option<Exit>, l: Locals)
      requires Valid()
      modifies Objects()
      ensures Yields(StepRouteCountries(EnvAt(now, frames), FlowOf(start, old(State()))), answer, l, State())
    {
      hide Finish, Block, Fail, Pass, Bypassed;
      answer, l := None, start;
      if !Bypassed(l.route, "ip") && l.route.Some?
         && (l.route.value.blockedCountries.Some? || l.route.value.whitelistCountries.Some?) {
        var gate := engine.parseCountries(l.route.value.whitelistCountries, l.route.value.blockedCountries);
        if l.facts.ip.Some? && layer.geoHandler.Some? {
          if engine.countryBlocks(l.facts.ip.value, gate, layer.geoHandler.value) {
            answer := BlockResponse(l, 403, FORBIDDEN_MESSAGE, now, frames);
          } else {
            l := l.(skipCountries := gate.whitelist != {});
          }
        }
      }
    }

    /** The gate's own denial: the pass inside the gate, then the one of its caller. */
    method DenyAtGate(l: Locals, now: nat, ghost frames: seq<Frame>) returns (answer: Option<Exit>)
      modifies Objects()
      ensures answer.Some?
      ensures Denial(EnvAt(now, frames), FlowOf(l, old(State()))) == Done(answer.value, State())
    {
      hide Pass;
      var plain := PlainText(403, ErrorBody(layer, 403, FORBIDDEN_MESSAGE));
      var input := InputFromParts(l.parts);
      FireBlockHook();
      var r := ApplyResponseProcessor(input, GeneratedLane, plain, now, frames);
      r := ApplyResponseProcessor(input, GeneratedLane, r, now, frames);
      answer := Some(GateDenied(r));
    }

    /** The address gate writes its decision into the request extensions. */
    method GlobalGateArm(start: Locals, now: nat, ghost frames: seq<Frame>) returns (answer: Option<Exit>, l: Locals)
      requires Valid()
      modifies Objects()
      ensures Yields(StepGlobalGate(EnvAt(now, frames), FlowOf(start, old(State()))), answer, l, State())
    {
      hide Finish, Block, Fail, Pass, Denial, Bypassed;
      answer, l := None, start;
      if !Bypassed(l.route, "ip") && !l.skipIpLists && layer.ipGate.Some? && l.parts.extensions.clientIp.Some? {
        match layer.ipGate.value.evaluate(l.parts.extensions.clientIp.value) {
          case Allowed(decision) => l := l.(parts := WithGate(l.parts, Some(decision)));
          case Denied(_) =>
            if !layer.passiveMode {
              answer := DenyAtGate(l, now, frames);
            }
        }
      }
    }

    method EmergencyArm(start: Locals, now: nat, ghost frames: seq<Frame>) returns (answer: Option<Exit>, l: Locals)
      requires Valid()
      modifies Objects()
      ensures Yields(StepEmergency(EnvAt(now, frames), FlowOf(start, old(State()))), answer, l, State())
    {
      hide Finish, Block, Fail, Pass;
      answer, l := None, start;
      if layer.emergency.Some? {
        var (s, a) := layer.emergency.value.decide(memory.states.emergency, l.facts);
        Remember(memory.states.(emergency := s));
        if a.Some? {
          answer := BlockResponse(l, a.value.status, a.value.body, now, frames);
        }
      }
    }

    method HttpsCheck(start: Locals, now: nat, ghost frames: seq<Frame>) returns (answer: Option<Exit>, l: Locals)
      requires Valid()
      modifies Objects()
      ensures Yields(StepHttps(EnvAt(now, frames), FlowOf(start, old(State()))), answer, l, State())
    {
      hide Finish, Block, Fail, Pass, HttpsQuestion, RedirectAnswer;
      answer, l := None, start;
      var redirect: Option<Redirect> := None;
      if layer.https.Some? {
        var (s, a) := layer.https.value.decide(memory.states.https, HttpsQuestion(l.facts, l.route));
        Remember(memory.states.(https := s));
        redirect := a;
      } else if l.route.Some? && l.route.value.requireHttps && l.facts.scheme != "https" && !layer.passiveMode {
        redirect := Some(Redirect(301, HttpsUrl(l.facts)));
      }
      if redirect.Some? {
        if ValidStatus(redirect.value.status) {
          answer := FinishGenerated(l, RedirectAnswer(redirect.value), now, frames);
        } else {
          answer := Some(Panicked);
        }
      }
    }

    /** The body buffers under the effective cap. */
    method BufferCheck(start: Locals, now: nat, frames: seq<Frame>) returns (answer: Option<Exit>, l: Locals)
      requires Valid()
      modifies Objects()
      ensures Yields(StepBuffer(EnvAt(now, frames), FlowOf(start, old(State()))), answer, l, State())
    {
      hide Finish, Block, Fail, Pass, Buffer, EffectiveCap;
      answer, l := None, start;
      var buffered := BufferBody(frames, EffectiveCap(layer, l.route));
      match buffered {
        case Ok(octets) => l := l.(buffered := octets);
        case Err(TooLarge) => answer := FinishGenerated(l, Oversize(), now, frames);
        case Err(ReadError) => answer := FailureResponse(l, now, frames);
      }
    }

    method RouteHeadersArm(start: Locals, now: nat, ghost frames: seq<Frame>) returns (answer: Option<Exit>, l: Locals)
      requires Valid()
      modifies Objects()
      ensures Yields(StepRouteHeaders(EnvAt(now, frames), FlowOf(start, old(State()))), answer, l, State())
    {
      hide Finish, Block, Fail, Pass, HeaderPairs, FindPair, HasHeaderRules;
      answer, l := None, start;
      if l.route.Some? && HasHeaderRules(l.route.value.headerRules) {
        var pairs := HeaderPairs(l.parts.headers);
        var a := engine.headersAuth(l.route.value.headerRules, name => FindPair(pairs, name));
        if a.Some? {
          answer := BlockResponse(l, a.value.status, a.value.body, now, frames);
        }
      }
    }

    method HeadersCheck(start: Locals, now: nat, ghost frames: seq<Frame>) returns (answer: Option<Exit>, l: Locals)
      requires Valid()
      modifies Objects()
      ensures Yields(StepHeaders(EnvAt(now, frames), FlowOf(start, old(State()))), answer, l, State())
    {
      hide Finish, Block, Fail, Pass, HeaderPairs;
      answer, l := None, start;
      if layer.headersAuth.Some? {
        var (s, a) := layer.headersAuth.value.decide(
          memory.states.headersAuth, l.facts.path, HeaderPairs(l.parts.headers));
        Remember(memory.states.(headersAuth := s));
        if a.Some? {
          answer := BlockResponse(l, a.value.status, a.value.body, now, frames);
        }
      }
    }

    method RouteReferrerArm(start: Locals, now: nat, ghost frames: seq<Frame>) returns (answer: Option<Exit>, l: Locals)
      requires Valid()
      modifies Objects()
      ensures Yields(StepRouteReferrer(EnvAt(now, frames), FlowOf(start, old(State()))), answer, l, State())
    {
      hide Finish, Block, Fail, Pass;
      answer, l := None, start;
      if l.route.Some? && l.route.value.requireReferrer.Some? {
        match engine.referrer(l.facts.referer, l.route.value.requireReferrer.value) {
          case ReferrerAllowed =>
          case ReferrerMissing => answer := BlockResponse(l, 403, REFERRER_MISSING_BODY, now, frames);
          case ReferrerInvalid => answer := BlockResponse(l, 403, REFERRER_INVALID_BODY, now, frames);
        }
      }
    }

    method ReferrerCheck(start: Locals, now: nat, ghost frames: seq<Frame>) returns (answer: Option<Exit>, l: Locals)
      requires Valid()
      modifies Objects()
      ensures Yields(StepReferrer(EnvAt(now, frames), FlowOf(start, old(State()))), answer, l, State())
    {
      hide Finish, Block, Fail, Pass;
      answer, l := None, start;
      if layer.referrer.Some? {
        var (s, a) := layer.referrer.value.decide(memory.states.referrer, l.facts);
        Remember(memory.states.(referrer := s));
        if a.Some? {
          answer := BlockResponse(l, a.value.status, a.value.body, now, frames);
        }
      }
    }

    method RouteValidatorsArm(start: Locals, now: nat, ghost frames: seq<Frame>) returns (answer: Option<Exit>, l: Locals)
      requires Valid()
      modifies Objects()
      ensures Yields(StepRouteValidators(EnvAt(now, frames), FlowOf(start, old(State()))), answer, l, State())
    {
      hide Finish, Block, Fail, Pass, Utf8View, CustomStatus;
      answer, l := None, start;
      if l.route.Some? && l.route.value.customValidators != [] {
        var a := engine.validators(l.route.value.customValidators, l.facts, Utf8View(engine, l.buffered));
        if a.Some? {
          answer := BlockResponse(l, CustomStatus(a.value), "", now, frames);
        }
      }
    }

    method ValidatorsCheck(start: Locals, now: nat, ghost frames: seq<Frame>) returns (answer: Option<Exit>, l: Locals)
      requires Valid()
      modifies Objects()
      ensures Yields(StepValidators(EnvAt(now, frames), FlowOf(start, old(State()))), answer, l, State())
    {
      hide Finish, Block, Fail, Pass, Utf8View, CustomStatus;
      answer, l := None, start;
      if layer.customChecks.Some? {
        var (s, a) := layer.customChecks.value.validators(
          memory.states.customChecks, l.facts, Utf8View(engine, l.buffered));
        Remember(memory.states.(customChecks := s));
        if a.Some? {
          answer := BlockResponse(l, CustomStatus(a.value), "", now, frames);
        }
      }
    }

    method RouteWindowArm(start: Locals, now: nat, ghost frames: seq<Frame>) returns (answer: Option<Exit>, l: Locals)
      requires Valid()
      modifies Objects()
      ensures Yields(StepRouteWindow(EnvAt(now, frames), FlowOf(start, old(State()))), answer, l, State())
    {
      hide Finish, Block, Fail, Pass;
      answer, l := None, start;
      if l.route.Some? && l.route.value.timeRestrictions.Some?
         && !engine.withinWindow(l.route.value.timeRestrictions.value, now) {
        answer := BlockResponse(l, 403, TIME_WINDOW_BODY, now, frames);
      }
    }

    method WindowCheck(start: Locals, now: nat, ghost frames: seq<Frame>) returns (answer: Option<Exit>, l: Locals)
      requires Valid()
      modifies Objects()
      ensures Yields(StepWindow(EnvAt(now, frames), FlowOf(start, old(State()))), answer, l, State())
    {
      hide Finish, Block, Fail, Pass;
      answer, l := None, start;
      if layer.timeWindow.Some? {
        var (s, a) := layer.timeWindow.value.decide(memory.states.timeWindow, l.facts);
        Remember(memory.states.(timeWindow := s));
        if a.Some? {
          answer := BlockResponse(l, a.value.status, a.value.body, now, frames);
        }
      }
    }

    /** One engine pass over the surfaces; a panic fails secure. */
    method ScanCheck(start: Locals, now: nat, ghost frames: seq<Frame>) returns (answer: Option<Exit>, l: Locals)
      requires Valid()
      modifies Objects()
      ensures Yields(StepScan(EnvAt(now, frames), FlowOf(start, old(State()))), answer, l, State())
    {
      hide Finish, Block, Fail, Pass, ScanSurfaces, Bypassed;
      answer, l := None, start;
      if Bypassed(l.route, "penetration")
         || !engine.detectionEnabled(
              layer.detection, if l.route.Some? then Some(l.route.value.enableSuspiciousDetection) else None) {
        l := l.(verdict := None);
      } else {
        match engine.scan(ScanSurfaces(l.parts, l.buffered), layer.exclusions) {
          case NoThreat => l := l.(verdict := None);
          case ScanPanic => answer := FailureResponse(l, now, frames);
          case Threat(finding) => l := l.(verdict := Some(finding));
        }
      }
    }

    method BansCheck(start: Locals, now: nat, ghost frames: seq<Frame>) returns (answer: Option<Exit>, l: Locals)
      requires Valid()
      modifies Objects()
      ensures Yields(StepBans(EnvAt(now, frames), FlowOf(start, old(State()))), answer, l, State())
    {
      hide Finish, Block, Fail, Pass, Bypassed, StageAnswer;
      answer, l := None, start;
      if !Bypassed(l.route, "ip_ban") {
        var (table, a) := engine.decideBans(stage.knobs, stage.manager.table, now, l.facts.ip);
        stage.manager.table := table;
        assert State().bans == old(State()).bans[stage.manager := table];
        if a.Some? {
          answer := FinishGenerated(l, StageAnswer(a.value), now, frames);
        }
      }
    }

    method GeoCheck(start: Locals, now: nat, ghost frames: seq<Frame>) returns (answer: Option<Exit>, l: Locals)
      requires Valid()
      modifies Objects()
      ensures Yields(StepGeo(EnvAt(now, frames), FlowOf(start, old(State()))), answer, l, State())
    {
      hide Finish, Block, Fail, Pass, Bypassed;
      answer, l := None, start;
      if !Bypassed(l.route, "ip") && !l.skipCountries {
        if layer.geoBlocking.Some? {
          var (s, a) := layer.geoBlocking.value.decide(memory.states.geo, l.facts.ip, l.facts.gate);
          Remember(memory.states.(geo := s));
          if a.Some? {
            answer := BlockResponse(l, a.value.status, a.value.body, now, frames);
          }
        }
      }
    }

    method CloudStageCheck(start: Locals, now: nat, selectors: Option<Selectors>, ghost frames: seq<Frame>) returns (answer: Option<Exit>, l: Locals)
      requires Valid()
      modifies Objects()
      ensures Yields(CloudDecision(EnvAt(now, frames), FlowOf(start, old(State())), selectors), answer, l, State())
    {
      hide Finish, Block, Fail, Pass;
      answer, l := None, start;
      if layer.cloud.Some? {
        var (s, a) := layer.cloud.value.decide(memory.states.cloud, l.facts.ip, l.facts.gate, selectors);
        Remember(memory.states.(cloud := s));
        if a.Some? {
          answer := BlockResponse(l, a.value.status, a.value.body, now, frames);
        }
      }
    }

    method CloudCheck(start: Locals, now: nat, ghost frames: seq<Frame>) returns (answer: Option<Exit>, l: Locals)
      requires Valid()
      modifies Objects()
      ensures Yields(StepCloud(EnvAt(now, frames), FlowOf(start, old(State()))), answer, l, State())
    {
      hide Finish, Block, Fail, Pass, Bypassed, CloudDecision;
      answer, l := None, start;
      if !Bypassed(l.route, "clouds") {
        if l.route.Some? && l.route.value.blockCloudProviders != [] {
          var selectors := engine.parseSelectors(l.route.value.blockCloudProviders);
          if selectors.None? {
            answer := FailureResponse(l, now, frames);
          } else {
            answer, l := CloudStageCheck(l, now, selectors, frames);
          }
        } else {
          answer, l := CloudStageCheck(l, now, None, frames);
        }
      }
    }

    method RouteAgentsArm(start: Locals, now: nat, ghost frames: seq<Frame>) returns (answer: Option<Exit>, l: Locals)
      requires Valid()
      modifies Objects()
      ensures Yields(StepRouteAgents(EnvAt(now, frames), FlowOf(start, old(State()))), answer, l, State())
    {
      hide Finish, Block, Fail, Pass;
      answer, l := None, start;
      if l.route.Some? && l.route.value.blockedUserAgents != [] && !Unfiltered(l.facts.gate) {
        var filter := engine.userAgentFilter(l.route.value.blockedUserAgents);
        if filter.None? {
          answer := FailureResponse(l, now, frames);
        } else if filter.value.isBlocked(if l.facts.userAgent.Some? then l.facts.userAgent.value else "") {
          answer := BlockResponse(l, 403, AGENT_BODY, now, frames);
        }
      }
    }

    method AgentCheck(start: Locals, now: nat, ghost frames: seq<Frame>) returns (answer: Option<Exit>, l: Locals)
      requires Valid()
      modifies Objects()
      ensures Yields(StepAgent(EnvAt(now, frames), FlowOf(start, old(State()))), answer, l, State())
    {
      hide Finish, Block, Fail, Pass;
      answer, l := None, start;
      if layer.userAgent.Some? {
        var (s, a) := layer.userAgent.value.decide(
          memory.states.userAgent,
          UserAgentInput(l.facts.ip, l.facts.gate, l.facts.path, l.facts.userAgent, l.verdict));
        Remember(memory.states.(userAgent := s));
        if a.Some? {
          answer := BlockResponse(l, a.value.status, a.value.body, now, frames);
        }
      }
    }

    method CarrierTiersArm(start: Locals, now: nat, ghost frames: seq<Frame>) returns (answer: Option<Exit>, l: Locals)
      requires Valid()
      modifies Objects()
      ensures Yields(StepCarrierTiers(EnvAt(now, frames), FlowOf(start, old(State()))), answer, l, State())
    {
      hide Finish, Block, Fail, Pass;
      answer, l := None, start;
      if l.route.Some? && l.route.value.rateLimits.InvalidTier? {
        answer := FailureResponse(l, now, frames);
      } else if l.route.Some? && l.route.value.rateLimits.limits.Some? {
        l := l.(tiers := l.route.value.rateLimits.limits);
      } else {
        l := l.(tiers := l.parts.extensions.tiers);
      }
    }

    /** Write back the windows, the counts and the bans of the stage. */
    method WriteTierStores(stores: TierStores)
      modifies stage.limiter, stage.counters, stage.manager
      ensures State() == WithBans(old(State()), stage.manager, stores.bans).(
                windows := stores.windows, counts := stores.counts)
    {
      stage.limiter.windows := stores.windows;
      stage.counters.counts := stores.counts;
      stage.manager.table := stores.bans;
      assert State().bans == old(State()).bans[stage.manager := stores.bans];
    }

    /** The tier decision, with its consultation noted. */
    method DecideTiers(l: Locals, now: nat, ghost frames: seq<Frame>) returns (a: Option<StageResponse>)
      requires Valid()
      modifies Objects()
      ensures (State(), a) == TierDecision(EnvAt(now, frames), FlowOf(l, old(State())), stage)
    {
      var q := TierInput(l.facts.ip, l.facts.path, l.tiers, l.parts.extensions.gate, l.verdict);
      var (stores, blocked) := engine.decideTiers(
        stage.knobs, TierStores(stage.limiter.windows, stage.counters.counts, stage.manager.table), now, q);
      WriteTierStores(stores);
      Note(State().journal.(consults := State().journal.consults + 1));
      a := blocked;
    }

    /** The tiers re-read the gate decision from the request extensions. */
    method TiersCheck(start: Locals, now: nat, ghost frames: seq<Frame>) returns (answer: Option<Exit>, l: Locals)
      requires Valid()
      modifies Objects()
      ensures Yields(StepTiers(EnvAt(now, frames), FlowOf(start, old(State()))), answer, l, State())
    {
      hide Finish, Block, Fail, Pass, Bypassed, StageAnswer, TierDecision;
      answer, l := None, start;
      if !Bypassed(l.route, "rate_limit") {
        var a := DecideTiers(l, now, frames);
        if a.Some? {
          answer := FinishGenerated(l, StageAnswer(a.value), now, frames);
        }
      }
    }

    method ThreatCheck(start: Locals, now: nat, ghost frames: seq<Frame>) returns (answer: Option<Exit>, l: Locals)
      requires Valid()
      modifies Objects()
      ensures Yields(StepThreat(EnvAt(now, frames), FlowOf(start, old(State()))), answer, l, State())
    {
      hide Finish, Block, Fail, Pass, BlockHook;
      answer, l := None, start;
      if l.verdict.Some? && !stage.knobs.passiveMode {
        FireBlockHook();
        answer := BlockResponse(l, 400, ErrorBody(layer, 400, BLOCKED_MESSAGE), now, frames);
      }
    }

    method CustomRequestCheck(start: Locals, now: nat, ghost frames: seq<Frame>) returns (answer: Option<Exit>, l: Locals)
      requires Valid()
      modifies Objects()
      ensures Yields(StepCustomRequest(EnvAt(now, frames), FlowOf(start, old(State()))), answer, l, State())
    {
      hide Finish, Block, Fail, Pass, Utf8View, CustomStatus;
      answer, l := None, start;
      if layer.customChecks.Some? {
        var (s, a) := layer.customChecks.value.request(
          memory.states.customChecks, l.facts, Utf8View(engine, l.buffered));
        Remember(memory.states.(customChecks := s));
        if a.Some? {
          answer := BlockResponse(l, CustomStatus(a.value), "", now, frames);
        }
      }
    }

    // ---- the phases -----------------------------------------------------------------------

    /** The first `k` arms passed: what is left to run starts at `f`. */
    ghost predicate Passed(arms: seq<Arm>, k: nat, env: Env, start: Flow, f: Flow)
    {
      k <= |arms| && Run(arms, env, start) == Run(arms[k..], env, f)
    }

    lemma Begin(arms: seq<Arm>, env: Env, start: Flow)
      ensures Passed(arms, 0, env, start, start)
    {
      assert arms[0..] == arms;
    }

    /** One more arm of a phase: either it ended the run, or the run goes on from its locals. */
    lemma Advance(arms: seq<Arm>, k: nat, env: Env, start: Flow, f: Flow, answer: Option<Exit>, l: Locals, w: World)
      requires k < |arms| && Passed(arms, k, env, start, f)
      requires Yields(Step(arms[k], env, f), answer, l, w)
      ensures answer.Some? || k + 1 == |arms| ==> Yields(Run(arms, env, start), answer, l, w)
      ensures answer.None? ==> Passed(arms, k + 1, env, start, FlowOf(l, w))
    {
      hide Step;
      assert arms[k..][0] == arms[k] && arms[k..][1..] == arms[k + 1..];
      if answer.None? {
        assert Run(arms[k..], env, f) == Run(arms[k + 1..], env, FlowOf(l, w));
        if k + 1 == |arms| {
          assert arms[k + 1..] == [];
        }
      }
    }

    /** The last arm of all. */
    lemma EndsForwarded(env: Env, l: Locals, before: World, answer: Option<Exit>, w: World)
      requires answer.Some?
      requires ForwardCall(env, FlowOf(l, before), Rebuilt(l.buffered)) == Done(answer.value, w)
      ensures Yields(Step(ForwardArm, env, FlowOf(l, before)), answer, l, w)
    {
      hide ForwardCall;
    }

    /** Which function each of these arms is. */
    lemma AdmitDispatch0(env: Env, f: Flow, answer: Option<Exit>, l: Locals, w: World)
      ensures Yields(StepExcludedPath(env, f), answer, l, w) ==> Yields(Step(ExcludedPath, env, f), answer, l, w)
      ensures Yields(StepPreflight(env, f), answer, l, w) ==> Yields(Step(Preflight, env, f), answer, l, w)
      ensures Yields(StepResolveRoute(env, f), answer, l, w) ==> Yields(Step(ResolveRoute, env, f), answer, l, w)
    {
      hide StepExcludedPath, StepPreflight, StepResolveRoute, StepUsageRules, StepRouteIps,
        StepRouteCountries, StepGlobalGate, StepEmergency, StepHttps, StepBuffer, StepRouteHeaders,
        StepHeaders, StepRouteReferrer, StepReferrer, StepRouteValidators, StepValidators,
        StepRouteWindow, StepWindow, StepScan, StepBans, StepGeo, StepCloud, StepRouteAgents,
        StepAgent, StepCarrierTiers, StepTiers, StepThreat, StepCustomRequest, ForwardCall;
    }

    /** Which function each of these arms is. */
    lemma AdmitDispatch1(env: Env, f: Flow, answer: Option<Exit>, l: Locals, w: World)
      ensures Yields(StepUsageRules(env, f), answer, l, w) ==> Yields(Step(UsageRules, env, f), answer, l, w)
      ensures Yields(StepRouteIps(env, f), answer, l, w) ==> Yields(Step(RouteIps, env, f), answer, l, w)
      ensures Yields(StepRouteCountries(env, f), answer, l, w) ==> Yields(Step(RouteCountries, env, f), answer, l, w)
    {
      hide StepExcludedPath, StepPreflight, StepResolveRoute, StepUsageRules, StepRouteIps,
        StepRouteCountries, StepGlobalGate, StepEmergency, StepHttps, StepBuffer, StepRouteHeaders,
        StepHeaders, StepRouteReferrer, StepReferrer, StepRouteValidators, StepValidators,
        StepRouteWindow, StepWindow, StepScan, StepBans, StepGeo, StepCloud, StepRouteAgents,
        StepAgent, StepCarrierTiers, StepTiers, StepThreat, StepCustomRequest, ForwardCall;
    }

    /** Which function each of these arms is. */
    lemma AdmitDispatch2(env: Env, f: Flow, answer: Option<Exit>, l: Locals, w: World)
      ensures Yields(StepGlobalGate(env, f), answer, l, w) ==> Yields(Step(GlobalGate, env, f), answer, l, w)
    {
      hide StepExcludedPath, StepPreflight, StepResolveRoute, StepUsageRules, StepRouteIps,
        StepRouteCountries, StepGlobalGate, StepEmergency, StepHttps, StepBuffer, StepRouteHeaders,
        StepHeaders, StepRouteReferrer, StepReferrer, StepRouteValidators, StepValidators,
        StepRouteWindow, StepWindow, StepScan, StepBans, StepGeo, StepCloud, StepRouteAgents,
        StepAgent, StepCarrierTiers, StepTiers, StepThreat, StepCustomRequest, ForwardCall;
    }

    /** From the excluded paths to the address gate. */
    method Admit(start: Locals, now: nat, ghost frames: seq<Frame>)
      returns (answer: Option<Exit>, l: Locals)
      requires Valid()
      modifies Objects()
      ensures Yields(Run(ADMISSION, EnvAt(now, frames), FlowOf(start, old(State()))), answer, l, State())
    {
      hide Run, Step, Yields, Passed, State, FlowOf, EnvAt, Objects, Valid, Rebuilt,
        StepExcludedPath, StepPreflight, StepResolveRoute, StepUsageRules, StepRouteIps,
        StepRouteCountries, StepGlobalGate, StepEmergency, StepHttps, StepBuffer, StepRouteHeaders,
        StepHeaders, StepRouteReferrer, StepReferrer, StepRouteValidators, StepValidators,
        StepRouteWindow, StepWindow, StepScan, StepBans, StepGeo, StepCloud, StepRouteAgents,
        StepAgent, StepCarrierTiers, StepTiers, StepThreat, StepCustomRequest, ForwardCall;
      ghost var env := EnvAt(now, frames);
      ghost var f, first := FlowOf(start, State()), FlowOf(start, State());
      Begin(ADMISSION, env, first);
      answer, l := ExcludedPathArm(start, now, frames);
      AdmitDispatch0(env, f, answer, l, State());
      Advance(ADMISSION, 0, env, first, f, answer, l, State());
      if answer.Some? {
        return;
      }
      f := FlowOf(l, State());
      answer, l := PreflightArm(l, now, frames);
      AdmitDispatch0(env, f, answer, l, State());
      Advance(ADMISSION, 1, env, first, f, answer, l, State());
      if answer.Some? {
        return;
      }
      f := FlowOf(l, State());
      answer, l := ResolveRouteArm(l, now, frames);
      AdmitDispatch0(env, f, answer, l, State());
      Advance(ADMISSION, 2, env, first, f, answer, l, State());
      if answer.Some? {
        return;
      }
      f := FlowOf(l, State());
      answer, l := UsageRulesArm(l, now, frames);
      AdmitDispatch1(env, f, answer, l, State());
      Advance(ADMISSION, 3, env, first, f, answer, l, State());
      if answer.Some? {
        return;
      }
      f := FlowOf(l, State());
      answer, l := RouteIpsArm(l, now, frames);
      AdmitDispatch1(env, f, answer, l, State());
      Advance(ADMISSION, 4, env, first, f, answer, l, State());
      if answer.Some? {
        return;
      }
      f := FlowOf(l, State());
      answer, l := RouteCountriesArm(l, now, frames);
      AdmitDispatch1(env, f, answer, l, State());
      Advance(ADMISSION, 5, env, first, f, answer, l, State());
      if answer.Some? {
        return;
      }
      f := FlowOf(l, State());
      answer, l := GlobalGateArm(l, now, frames);
      AdmitDispatch2(env, f, answer, l, State());
      Advance(ADMISSION, 6, env, first, f, answer, l, State());
    }

    /** Which function each of these arms is. */
    lemma InspectContentDispatch0(env: Env, f: Flow, answer: Option<Exit>, l: Locals, w: World)
      ensures Yields(StepEmergency(env, f), answer, l, w) ==> Yields(Step(EmergencyMode, env, f), answer, l, w)
      ensures Yields(StepHttps(env, f), answer, l, w) ==> Yields(Step(HttpsArm, env, f), answer, l, w)
      ensures Yields(StepBuffer(env, f), answer, l, w) ==> Yields(Step(BufferArm, env, f), answer, l, w)
    {
      hide StepExcludedPath, StepPreflight, StepResolveRoute, StepUsageRules, StepRouteIps,
        StepRouteCountries, StepGlobalGate, StepEmergency, StepHttps, StepBuffer, StepRouteHeaders,
        StepHeaders, StepRouteReferrer, StepReferrer, StepRouteValidators, StepValidators,
        StepRouteWindow, StepWindow, StepScan, StepBans, StepGeo, StepCloud, StepRouteAgents,
        StepAgent, StepCarrierTiers, StepTiers, StepThreat, StepCustomRequest, ForwardCall;
    }

    /** Which function each of these arms is. */
    lemma InspectContentDispatch1(env: Env, f: Flow, answer: Option<Exit>, l: Locals, w: World)
      ensures Yields(StepRouteHeaders(env, f), answer, l, w) ==> Yields(Step(RouteHeaders, env, f), answer, l, w)
      ensures Yields(StepHeaders(env, f), answer, l, w) ==> Yields(Step(HeadersArm, env, f), answer, l, w)
      ensures Yields(StepRouteReferrer(env, f), answer, l, w) ==> Yields(Step(RouteReferrer, env, f), answer, l, w)
    {
      hide StepExcludedPath, StepPreflight, StepResolveRoute, StepUsageRules, StepRouteIps,
        StepRouteCountries, StepGlobalGate, StepEmergency, StepHttps, StepBuffer, StepRouteHeaders,
        StepHeaders, StepRouteReferrer, StepReferrer, StepRouteValidators, StepValidators,
        StepRouteWindow, StepWindow, StepScan, StepBans, StepGeo, StepCloud, StepRouteAgents,
        StepAgent, StepCarrierTiers, StepTiers, StepThreat, StepCustomRequest, ForwardCall;
    }

    /** Which function each of these arms is. */
    lemma InspectContentDispatch2(env: Env, f: Flow, answer: Option<Exit>, l: Locals, w: World)
      ensures Yields(StepReferrer(env, f), answer, l, w) ==> Yields(Step(ReferrerArm, env, f), answer, l, w)
      ensures Yields(StepRouteValidators(env, f), answer, l, w) ==> Yields(Step(RouteValidators, env, f), answer, l, w)
      ensures Yields(StepValidators(env, f), answer, l, w) ==> Yields(Step(Validators, env, f), answer, l, w)
    {
      hide StepExcludedPath, StepPreflight, StepResolveRoute, StepUsageRules, StepRouteIps,
        StepRouteCountries, StepGlobalGate, StepEmergency, StepHttps, StepBuffer, StepRouteHeaders,
        StepHeaders, StepRouteReferrer, StepReferrer, StepRouteValidators, StepValidators,
        StepRouteWindow, StepWindow, StepScan, StepBans, StepGeo, StepCloud, StepRouteAgents,
        StepAgent, StepCarrierTiers, StepTiers, StepThreat, StepCustomRequest, ForwardCall;
    }

    /** Which function each of these arms is. */
    lemma InspectContentDispatch3(env: Env, f: Flow, answer: Option<Exit>, l: Locals, w: World)
      ensures Yields(StepRouteWindow(env, f), answer, l, w) ==> Yields(Step(RouteWindow, env, f), answer, l, w)
      ensures Yields(StepWindow(env, f), answer, l, w) ==> Yields(Step(WindowArm, env, f), answer, l, w)
    {
      hide StepExcludedPath, StepPreflight, StepResolveRoute, StepUsageRules, StepRouteIps,
        StepRouteCountries, StepGlobalGate, StepEmergency, StepHttps, StepBuffer, StepRouteHeaders,
        StepHeaders, StepRouteReferrer, StepReferrer, StepRouteValidators, StepValidators,
        StepRouteWindow, StepWindow, StepScan, StepBans, StepGeo, StepCloud, StepRouteAgents,
        StepAgent, StepCarrierTiers, StepTiers, StepThreat, StepCustomRequest, ForwardCall;
    }

    /** From emergency mode to the authentication headers. */
    method Authenticate(start: Locals, now: nat, frames: seq<Frame>)
      returns (answer: Option<Exit>, l: Locals)
      requires Valid()
      modifies Objects()
      ensures answer.Some? ==> Yields(Run(CONTENT, EnvAt(now, frames), FlowOf(start, old(State()))), answer, l, State())
      ensures answer.None? ==> Passed(CONTENT, 5, EnvAt(now, frames), FlowOf(start, old(State())), FlowOf(l, State()))
    {
      hide Run, Step, Yields, Passed, State, FlowOf, EnvAt, Objects, Valid, Rebuilt,
        StepExcludedPath, StepPreflight, StepResolveRoute, StepUsageRules, StepRouteIps,
        StepRouteCountries, StepGlobalGate, StepEmergency, StepHttps, StepBuffer, StepRouteHeaders,
        StepHeaders, StepRouteReferrer, StepReferrer, StepRouteValidators, StepValidators,
        StepRouteWindow, StepWindow, StepScan, StepBans, StepGeo, StepCloud, StepRouteAgents,
        StepAgent, StepCarrierTiers, StepTiers, StepThreat, StepCustomRequest, ForwardCall;
      ghost var env := EnvAt(now, frames);
      ghost var f, first := FlowOf(start, State()), FlowOf(start, State());
      Begin(CONTENT, env, first);
      answer, l := EmergencyArm(start, now, frames);
      InspectContentDispatch0(env, f, answer, l, State());
      Advance(CONTENT, 0, env, first, f, answer, l, State());
      if answer.Some? {
        return;
      }
      f := FlowOf(l, State());
      answer, l := HttpsCheck(l, now, frames);
      InspectContentDispatch0(env, f, answer, l, State());
      Advance(CONTENT, 1, env, first, f, answer, l, State());
      if answer.Some? {
        return;
      }
      f := FlowOf(l, State());
      answer, l := BufferCheck(l, now, frames);
      InspectContentDispatch0(env, f, answer, l, State());
      Advance(CONTENT, 2, env, first, f, answer, l, State());
      if answer.Some? {
        return;
      }
      f := FlowOf(l, State());
      answer, l := RouteHeadersArm(l, now, frames);
      InspectContentDispatch1(env, f, answer, l, State());
      Advance(CONTENT, 3, env, first, f, answer, l, State());
      if answer.Some? {
        return;
      }
      f := FlowOf(l, State());
      answer, l := HeadersCheck(l, now, frames);
      InspectContentDispatch1(env, f, answer, l, State());
      Advance(CONTENT, 4, env, first, f, answer, l, State());
    }

    /** From the referrer to the time window. */
    method CheckGates(start: Locals, now: nat, frames: seq<Frame>, ghost first: Flow)
      returns (answer: Option<Exit>, l: Locals)
      requires Valid()
      requires Passed(CONTENT, 5, EnvAt(now, frames), first, FlowOf(start, State()))
      modifies Objects()
      ensures Yields(Run(CONTENT, EnvAt(now, frames), first), answer, l, State())
    {
      hide Run, Step, Yields, Passed, State, FlowOf, EnvAt, Objects, Valid, Rebuilt,
        StepExcludedPath, StepPreflight, StepResolveRoute, StepUsageRules, StepRouteIps,
        StepRouteCountries, StepGlobalGate, StepEmergency, StepHttps, StepBuffer, StepRouteHeaders,
        StepHeaders, StepRouteReferrer, StepReferrer, StepRouteValidators, StepValidators,
        StepRouteWindow, StepWindow, StepScan, StepBans, StepGeo, StepCloud, StepRouteAgents,
        StepAgent, StepCarrierTiers, StepTiers, StepThreat, StepCustomRequest, ForwardCall;
      ghost var env := EnvAt(now, frames);
      ghost var f := FlowOf(start, State());
      answer, l := RouteReferrerArm(start, now, frames);
      InspectContentDispatch1(env, f, answer, l, State());
      Advance(CONTENT, 5, env, first, f, answer, l, State());
      if answer.Some? {
        return;
      }
      f := FlowOf(l, State());
      answer, l := ReferrerCheck(l, now, frames);
      InspectContentDispatch2(env, f, answer, l, State());
      Advance(CONTENT, 6, env, first, f, answer, l, State());
      if answer.Some? {
        return;
      }
      f := FlowOf(l, State());
      answer, l := RouteValidatorsArm(l, now, frames);
      InspectContentDispatch2(env, f, answer, l, State());
      Advance(CONTENT, 7, env, first, f, answer, l, State());
      if answer.Some? {
        return;
      }
      f := FlowOf(l, State());
      answer, l := ValidatorsCheck(l, now, frames);
      InspectContentDispatch2(env, f, answer, l, State());
      Advance(CONTENT, 8, env, first, f, answer, l, State());
      if answer.Some? {
        return;
      }
      f := FlowOf(l, State());
      answer, l := RouteWindowArm(l, now, frames);
      InspectContentDispatch3(env, f, answer, l, State());
      Advance(CONTENT, 9, env, first, f, answer, l, State());
      if answer.Some? {
        return;
      }
      f := FlowOf(l, State());
      answer, l := WindowCheck(l, now, frames);
      InspectContentDispatch3(env, f, answer, l, State());
      Advance(CONTENT, 10, env, first, f, answer, l, State());
    }

    /** From emergency mode to the time window. */
    method InspectContent(start: Locals, now: nat, frames: seq<Frame>) returns (answer: Option<Exit>, l: Locals)
      requires Valid()
      modifies Objects()
      ensures Yields(Run(CONTENT, EnvAt(now, frames), FlowOf(start, old(State()))), answer, l, State())
    {
      hide Run, Yields, Passed, State, FlowOf, EnvAt, Objects, Valid;
      ghost var first := FlowOf(start, State());
      answer, l := Authenticate(start, now, frames);
      if answer.None? {
        answer, l := CheckGates(l, now, frames, first);
      }
    }

    /** Which function each of these arms is. */
    lemma ScreenDispatch0(env: Env, f: Flow, answer: Option<Exit>, l: Locals, w: World)
      ensures Yields(StepScan(env, f), answer, l, w) ==> Yields(Step(ScanArm, env, f), answer, l, w)
      ensures Yields(StepBans(env, f), answer, l, w) ==> Yields(Step(BanArm, env, f), answer, l, w)
      ensures Yields(StepGeo(env, f), answer, l, w) ==> Yields(Step(GeoArm, env, f), answer, l, w)
    {
      hide StepExcludedPath, StepPreflight, StepResolveRoute, StepUsageRules, StepRouteIps,
        StepRouteCountries, StepGlobalGate, StepEmergency, StepHttps, StepBuffer, StepRouteHeaders,
        StepHeaders, StepRouteReferrer, StepReferrer, StepRouteValidators, StepValidators,
        StepRouteWindow, StepWindow, StepScan, StepBans, StepGeo, StepCloud, StepRouteAgents,
        StepAgent, StepCarrierTiers, StepTiers, StepThreat, StepCustomRequest, ForwardCall;
    }

    /** Which function each of these arms is. */
    lemma ScreenDispatch1(env: Env, f: Flow, answer: Option<Exit>, l: Locals, w: World)
      ensures Yields(StepCloud(env, f), answer, l, w) ==> Yields(Step(CloudArm, env, f), answer, l, w)
      ensures Yields(StepRouteAgents(env, f), answer, l, w) ==> Yields(Step(RouteAgents, env, f), answer, l, w)
      ensures Yields(StepAgent(env, f), answer, l, w) ==> Yields(Step(AgentArm, env, f), answer, l, w)
    {
      hide StepExcludedPath, StepPreflight, StepResolveRoute, StepUsageRules, StepRouteIps,
        StepRouteCountries, StepGlobalGate, StepEmergency, StepHttps, StepBuffer, StepRouteHeaders,
        StepHeaders, StepRouteReferrer, StepReferrer, StepRouteValidators, StepValidators,
        StepRouteWindow, StepWindow, StepScan, StepBans, StepGeo, StepCloud, StepRouteAgents,
        StepAgent, StepCarrierTiers, StepTiers, StepThreat, StepCustomRequest, ForwardCall;
    }

    /** From the scan to the user agent. */
    method Screen(start: Locals, now: nat, ghost frames: seq<Frame>)
      returns (answer: Option<Exit>, l: Locals)
      requires Valid()
      modifies Objects()
      ensures Yields(Run(SCREENING, EnvAt(now, frames), FlowOf(start, old(State()))), answer, l, State())
    {
      hide Run, Step, Yields, Passed, State, FlowOf, EnvAt, Objects, Valid, Rebuilt,
        StepExcludedPath, StepPreflight, StepResolveRoute, StepUsageRules, StepRouteIps,
        StepRouteCountries, StepGlobalGate, StepEmergency, StepHttps, StepBuffer, StepRouteHeaders,
        StepHeaders, StepRouteReferrer, StepReferrer, StepRouteValidators, StepValidators,
        StepRouteWindow, StepWindow, StepScan, StepBans, StepGeo, StepCloud, StepRouteAgents,
        StepAgent, StepCarrierTiers, StepTiers, StepThreat, StepCustomRequest, ForwardCall;
      ghost var env := EnvAt(now, frames);
      ghost var f, first := FlowOf(start, State()), FlowOf(start, State());
      Begin(SCREENING, env, first);
      answer, l := ScanCheck(start, now, frames);
      ScreenDispatch0(env, f, answer, l, State());
      Advance(SCREENING, 0, env, first, f, answer, l, State());
      if answer.Some? {
        return;
      }
      f := FlowOf(l, State());
      answer, l := BansCheck(l, now, frames);
      ScreenDispatch0(env, f, answer, l, State());
      Advance(SCREENING, 1, env, first, f, answer, l, State());
      if answer.Some? {
        return;
      }
      f := FlowOf(l, State());
      answer, l := GeoCheck(l, now, frames);
      ScreenDispatch0(env, f, answer, l, State());
      Advance(SCREENING, 2, env, first, f, answer, l, State());
      if answer.Some? {
        return;
      }
      f := FlowOf(l, State());
      answer, l := CloudCheck(l, now, frames);
      ScreenDispatch1(env, f, answer, l, State());
      Advance(SCREENING, 3, env, first, f, answer, l, State());
      if answer.Some? {
        return;
      }
      f := FlowOf(l, State());
      answer, l := RouteAgentsArm(l, now, frames);
      ScreenDispatch1(env, f, answer, l, State());
      Advance(SCREENING, 4, env, first, f, answer, l, State());
      if answer.Some? {
        return;
      }
      f := FlowOf(l, State());
      answer, l := AgentCheck(l, now, frames);
      ScreenDispatch1(env, f, answer, l, State());
      Advance(SCREENING, 5, env, first, f, answer, l, State());
    }

    /** Which function each of these arms is. */
    lemma SettleDispatch0(env: Env, f: Flow, answer: Option<Exit>, l: Locals, w: World)
      ensures Yields(StepCarrierTiers(env, f), answer, l, w) ==> Yields(Step(CarrierTiers, env, f), answer, l, w)
      ensures Yields(StepTiers(env, f), answer, l, w) ==> Yields(Step(TierArm, env, f), answer, l, w)
      ensures Yields(StepThreat(env, f), answer, l, w) ==> Yields(Step(ThreatBlock, env, f), answer, l, w)
    {
      hide StepExcludedPath, StepPreflight, StepResolveRoute, StepUsageRules, StepRouteIps,
        StepRouteCountries, StepGlobalGate, StepEmergency, StepHttps, StepBuffer, StepRouteHeaders,
        StepHeaders, StepRouteReferrer, StepReferrer, StepRouteValidators, StepValidators,
        StepRouteWindow, StepWindow, StepScan, StepBans, StepGeo, StepCloud, StepRouteAgents,
        StepAgent, StepCarrierTiers, StepTiers, StepThreat, StepCustomRequest, ForwardCall;
    }

    /** Which function each of these arms is. */
    lemma SettleDispatch1(env: Env, f: Flow, answer: Option<Exit>, l: Locals, w: World)
      ensures Yields(StepCustomRequest(env, f), answer, l, w) ==> Yields(Step(CustomRequestArm, env, f), answer, l, w)
    {
      hide StepExcludedPath, StepPreflight, StepResolveRoute, StepUsageRules, StepRouteIps,
        StepRouteCountries, StepGlobalGate, StepEmergency, StepHttps, StepBuffer, StepRouteHeaders,
        StepHeaders, StepRouteReferrer, StepReferrer, StepRouteValidators, StepValidators,
        StepRouteWindow, StepWindow, StepScan, StepBans, StepGeo, StepCloud, StepRouteAgents,
        StepAgent, StepCarrierTiers, StepTiers, StepThreat, StepCustomRequest, ForwardCall;
    }

    /** From the tiers to the wrapped service. */
    method Settle(start: Locals, now: nat, ghost frames: seq<Frame>)
      returns (answer: Option<Exit>, l: Locals)
      requires Valid()
      modifies Objects()
      ensures answer.Some?
      ensures Yields(Run(SETTLEMENT, EnvAt(now, frames), FlowOf(start, old(State()))), answer, l, State())
    {
      hide Run, Step, Yields, Passed, State, FlowOf, EnvAt, Objects, Valid, Rebuilt,
        StepExcludedPath, StepPreflight, StepResolveRoute, StepUsageRules, StepRouteIps,
        StepRouteCountries, StepGlobalGate, StepEmergency, StepHttps, StepBuffer, StepRouteHeaders,
        StepHeaders, StepRouteReferrer, StepReferrer, StepRouteValidators, StepValidators,
        StepRouteWindow, StepWindow, StepScan, StepBans, StepGeo, StepCloud, StepRouteAgents,
        StepAgent, StepCarrierTiers, StepTiers, StepThreat, StepCustomRequest, ForwardCall;
      ghost var env := EnvAt(now, frames);
      ghost var f, first := FlowOf(start, State()), FlowOf(start, State());
      Begin(SETTLEMENT, env, first);
      answer, l := CarrierTiersArm(start, now, frames);
      SettleDispatch0(env, f, answer, l, State());
      Advance(SETTLEMENT, 0, env, first, f, answer, l, State());
      if answer.Some? {
        return;
      }
      f := FlowOf(l, State());
      answer, l := TiersCheck(l, now, frames);
      SettleDispatch0(env, f, answer, l, State());
      Advance(SETTLEMENT, 1, env, first, f, answer, l, State());
      if answer.Some? {
        return;
      }
      f := FlowOf(l, State());
      answer, l := ThreatCheck(l, now, frames);
      SettleDispatch0(env, f, answer, l, State());
      Advance(SETTLEMENT, 2, env, first, f, answer, l, State());
      if answer.Some? {
        return;
      }
      f := FlowOf(l, State());
      answer, l := CustomRequestCheck(l, now, frames);
      SettleDispatch1(env, f, answer, l, State());
      Advance(SETTLEMENT, 3, env, first, f, answer, l, State());
      if answer.Some? {
        return;
      }
      f := FlowOf(l, State());
      ghost var before := State();
      answer := Forward(l, Rebuilt(l.buffered), now, frames);
      EndsForwarded(env, l, before, answer, State());
      Advance(SETTLEMENT, 4, env, first, f, answer, l, State());
    }

    /** A phase that answered ends every longer run. */
    lemma Early(a: seq<Arm>, b: seq<Arm>, env: Env, f: Flow, answer: Option<Exit>, l: Locals, w: World)
      requires answer.Some? && Yields(Run(a, env, f), answer, l, w)
      ensures Yields(Run(a + b, env, f), answer, l, w)
    {
      RunAppend(a, b, env, f);
    }

    /** A phase that passed hands its locals to the next one. */
    lemma Onwards(a: seq<Arm>, b: seq<Arm>, env: Env, f: Flow, m: Locals, v: World,
                  answer: Option<Exit>, l: Locals, w: World)
      requires Yields(Run(a, env, f), None, m, v)
      requires Yields(Run(b, env, FlowOf(m, v)), answer, l, w)
      ensures Yields(Run(a + b, env, f), answer, l, w)
    {
      RunAppend(a, b, env, f);
    }

    /** The first two phases. */
    method Receive(start: Locals, now: nat, frames: seq<Frame>) returns (answer: Option<Exit>, l: Locals)
      requires Valid()
      modifies Objects()
      ensures Yields(Run(ADMISSION + CONTENT, EnvAt(now, frames), FlowOf(start, old(State()))), answer, l, State())
    {
      hide Run, Yields, State, FlowOf, EnvAt, Objects, Valid;
      ghost var env, f := EnvAt(now, frames), FlowOf(start, State());
      answer, l := Admit(start, now, frames);
      if answer.Some? {
        Early(ADMISSION, CONTENT, env, f, answer, l, State());
        return;
      }
      ghost var m, v := l, State();
      answer, l := InspectContent(l, now, frames);
      Onwards(ADMISSION, CONTENT, env, f, m, v, answer, l, State());
    }

    /** The last two phases; the last arm always answers. */
    method Judge(start: Locals, now: nat, ghost frames: seq<Frame>) returns (answer: Option<Exit>, l: Locals)
      requires Valid()
      modifies Objects()
      ensures answer.Some?
      ensures Yields(Run(SCREENING + SETTLEMENT, EnvAt(now, frames), FlowOf(start, old(State()))), answer, l, State())
    {
      hide Run, Yields, State, FlowOf, EnvAt, Objects, Valid;
      ghost var env, f := EnvAt(now, frames), FlowOf(start, State());
      answer, l := Screen(start, now, frames);
      if answer.Some? {
        Early(SCREENING, SETTLEMENT, env, f, answer, l, State());
        return;
      }
      ghost var m, v := l, State();
      answer, l := Settle(l, now, frames);
      Onwards(SCREENING, SETTLEMENT, env, f, m, v, answer, l, State());
    }

    /** The whole run, from a fresh set of locals. */
    lemma RunOver(env: Env, parts: Parts, v: World, l: Locals, answer: Option<Exit>, w: World)
      requires answer.Some?
      requires l == Locals(parts, Http.Extract(parts), None, false, false, None, None, None)
      requires Yields(Run((ADMISSION + CONTENT) + (SCREENING + SETTLEMENT), env, FlowOf(l, v)), answer, l, w)
      ensures Pipeline.Call(env, parts, v) == Done(answer.value, w)
    {
      hide Run;
      assert (ADMISSION + CONTENT) + (SCREENING + SETTLEMENT) == ORDER;
      assert FlowOf(l, v) == Start(parts, v);
    }

    /** An answer carries no locals. */
    lemma AnswerForgetsLocals(o: Outcome, answer: Option<Exit>, l: Locals, m: Locals, w: World)
      requires answer.Some? && Yields(o, answer, l, w)
      ensures Yields(o, answer, m, w)
    {
    }

    /**
     One call of the service: the stores and the exit are those of the state
     machine, on every request, every body and every state of the stores.
     */
    method Call(parts: Parts, frames: seq<Frame>, now: nat) returns (exit: Exit)
      requires Valid()
      modifies Objects()
      ensures Pipeline.Call(EnvAt(now, frames), parts, old(State())) == Done(exit, State())
    {
      hide Run, Yields, State, FlowOf, EnvAt, Objects, Valid, Pipeline.Call, Http.Extract;
      var start := Locals(parts, Http.Extract(parts), None, false, false, None, None, None);
      ghost var env, f, v := EnvAt(now, frames), FlowOf(start, State()), State();
      var answer, l := Receive(start, now, frames);
      if answer.Some? {
        Early(ADMISSION + CONTENT, SCREENING + SETTLEMENT, env, f, answer, l, State());
      } else {
        ghost var m, u := l, State();
        answer, l := Judge(l, now, frames);
        Onwards(ADMISSION + CONTENT, SCREENING + SETTLEMENT, env, f, m, u, answer, l, State());
      }
      AnswerForgetsLocals(
        Run((ADMISSION + CONTENT) + (SCREENING + SETTLEMENT), env, f), answer, l, start, State());
      RunOver(env, parts, v, start, answer, State());
      exit := answer.value;
    }

    /** `reset`: the windows the stage counts in are dropped; bans, counts and every other store stay. */
    method Reset()
      requires Valid() && BuiltFrom(stage, layer)
      modifies LimiterOf(layer)
      ensures State() == if layer.rateLimiter.Some? then old(State()).(windows := map[]) else old(State())
    {
      Layer.Reset(layer);
      assert State().bans == old(State()).bans;
    }
  }

  /** `Layer::layer`: the stage is built on the way, so every call of the service finds it. */
  method Wrap(engine: Engine, layer: GuardLayer, inner: InnerService, memory: StageMemory)
    returns (service: GuardService)
    ensures fresh(service) && service.Valid() && service.engine == engine
    ensures service.layer == layer.(stage := service.layer.stage)
    ensures layer.stage.None? ==> BuiltFrom(service.stage, layer)
    ensures service.inner == inner && service.memory == memory && fresh(service.journal)
  {
    var layered := Layered(layer);
    service := new GuardService(engine, layered, inner, memory);
  }

  /** A clone of a service: the same handles, behind a new object. */
  ghost predicate CloneOf(a: GuardService, b: GuardService)
  {
    && a.engine == b.engine && a.layer == b.layer && a.stage == b.stage
    && a.inner == b.inner && a.memory == b.memory && a.journal == b.journal
  }

  ghost function SiteOf(a: GuardService): Site
  {
    Site(a.engine, a.layer, Inner(a.inner.answer))
  }

  /**
   Clones share every store: whichever clone takes which request, the stores end
   as if one service had taken the whole list.
   */
  method ServeByClones(a: GuardService, b: GuardService, visits: seq<Visit>, turns: seq<bool>)
    requires a.Valid() && CloneOf(a, b) && |turns| == |visits|
    modifies a.Objects()
    ensures a.State() == b.State() == Serve(SiteOf(a), visits, old(a.State()))
    decreases |visits|
  {
    hide Pipeline.Call;
    if visits == [] {
      return;
    }
    var v := visits[0];
    if turns[0] {
      var _ := a.Call(v.parts, v.frames, v.now);
    } else {
      var _ := b.Call(v.parts, v.frames, v.now);
    }
    ServeByClones(a, b, visits[1..], turns[1..]);
  }
}
