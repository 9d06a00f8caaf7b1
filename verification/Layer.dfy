/**
 The layer of `src/lib.rs`: the builders, the stage build, the unified
 configuration and `reset`. Builders take the layer by value and hand it back,
 so a layer is a value; the stores it points at are objects.
 */
module Layer {
  import opened Engine
  import opened Http
  import opened Wrappers

  datatype BanState = BanState(manager: IpBanManager, counters: ViolationCounters, config: IpBanConfig)

  datatype RouteResolver = RouteResolver(resolve: (string, string) -> Option<RouteConfig>)

  datatype GuardLayer = GuardLayer(
    bodyCap: nat,
    ipGate: Option<IpGate>,
    rateLimiter: Option<RateLimiter>,
    banState: Option<BanState>,
    routeTiers: Option<Handle>,
    routeConfigs: Option<RouteResolver>,
    geoHandler: Option<Handle>,
    events: Option<Handle>,
    observability: Option<Handle>,
    onBlock: Option<Handle>,
    responseModifier: Option<ResponseModifier>,
    onError: Option<Handle>,
    customErrors: map<nat, string>,
    passiveMode: bool,
    distributed: Option<Handle>,
    distributedBans: Option<Handle>,
    exclusions: Option<Handle>,
    emergency: Option<EmergencyStage>,
    https: Option<HttpsStage>,
    requestLogging: Option<Handle>,
    headersAuth: Option<HeadersAuthStage>,
    referrer: Option<GateStage>,
    customChecks: Option<CustomChecksStage>,
    timeWindow: Option<GateStage>,
    geoBlocking: Option<GeoStage>,
    cloud: Option<CloudStage>,
    userAgent: Option<UserAgentStage>,
    processor: Option<ResponseProcessor>,
    excludePaths: seq<string>,
    detection: bool,
    cloudRefresh: Option<Handle>,
    stage: Option<RateLimitStage>)

  /** `GuardLayer::new`: the body cap starts at the full-scan cap, nothing is installed. */
  function New(fullScanCap: nat): GuardLayer
  {
    GuardLayer(fullScanCap, None, None, None, None, None, None, None, None, None, None, None, map[], false,
               None, None, None, None, None, None, None, None, None, None, None, None, None, None, [], true,
               None, None)
  }

  // ---- builders --------------------------------------------------------------------

  /** One `with_*` call, with the arguments of the source. */
  datatype Setting =
    | BodyCap(cap: nat)
    | Gate(gate: IpGate)
    | RateLimiting(limiter: RateLimiter)
    | Banning(manager: IpBanManager, config: IpBanConfig)
    | RouteTiers(tiers: Handle)
    | RouteConfigs(resolver: RouteResolver)
    | GeoHandler(handler: Handle)
    | EventBus(bus: Handle)
    | Observability(knobs: Handle)
    | OnBlock(hook: Handle)
    | Modifier(modifier: ResponseModifier)
    | OnError(errorHook: Handle)
    | CustomErrors(overrides: map<nat, string>)
    | PassiveMode(passive: bool)
    | Distributed(store: Handle)
    | DistributedBans(banStore: Handle)
    | Exclusions(exclusions: Handle)
    | Emergency(emergency: EmergencyStage)
    | Https(https: HttpsStage)
    | RequestLogging(logging: Handle)
    | HeadersAuth(headersAuth: HeadersAuthStage)
    | Referrer(referrer: GateStage)
    | CustomChecks(checks: CustomChecksStage)
    | TimeWindow(window: GateStage)
    | GeoBlocking(geo: GeoStage)
    | Cloud(cloud: CloudStage)
    | UserAgent(userAgent: UserAgentStage)
    | Processor(processor: ResponseProcessor)
    | ExcludePaths(paths: seq<string>)
    | Detection(enabled: bool)
    | CloudRefresh(scheduler: Handle)

  datatype Field =
    | FBodyCap | FGate | FRateLimiting | FBanning | FRouteTiers | FRouteConfigs | FGeoHandler | FEventBus |
    FObservability | FOnBlock | FModifier | FOnError | FCustomErrors | FPassiveMode | FDistributed |
    FDistributedBans | FExclusions | FEmergency | FHttps | FRequestLogging | FHeadersAuth | FReferrer |
    FCustomChecks | FTimeWindow | FGeoBlocking | FCloud | FUserAgent | FProcessor | FExcludePaths | FDetection |
    FCloudRefresh

  /** The field a builder writes. */
  function FieldOf(s: Setting): Field
  {
    match s
    case BodyCap(_) => FBodyCap
    case Gate(_) => FGate
    case RateLimiting(_) => FRateLimiting
    case Banning(_, _) => FBanning
    case RouteTiers(_) => FRouteTiers
    case RouteConfigs(_) => FRouteConfigs
    case GeoHandler(_) => FGeoHandler
    case EventBus(_) => FEventBus
    case Observability(_) => FObservability
    case OnBlock(_) => FOnBlock
    case Modifier(_) => FModifier
    case OnError(_) => FOnError
    case CustomErrors(_) => FCustomErrors
    case PassiveMode(_) => FPassiveMode
    case Distributed(_) => FDistributed
    case DistributedBans(_) => FDistributedBans
    case Exclusions(_) => FExclusions
    case Emergency(_) => FEmergency
    case Https(_) => FHttps
    case RequestLogging(_) => FRequestLogging
    case HeadersAuth(_) => FHeadersAuth
    case Referrer(_) => FReferrer
    case CustomChecks(_) => FCustomChecks
    case TimeWindow(_) => FTimeWindow
    case GeoBlocking(_) => FGeoBlocking
    case Cloud(_) => FCloud
    case UserAgent(_) => FUserAgent
    case Processor(_) => FProcessor
    case ExcludePaths(_) => FExcludePaths
    case Detection(_) => FDetection
    case CloudRefresh(_) => FCloudRefresh
  }

  /** What a layer can hold in a field; of the ban state everything but the counters. */
  datatype Slot =
    | BodyCapSlot(bodyCap: nat)
    | GateSlot(ipGate: Option<IpGate>)
    | RateLimitingSlot(rateLimiter: Option<RateLimiter>)
    | BanningSlot(state: Option<(IpBanManager, IpBanConfig)>)
    | RouteTiersSlot(routeTiers: Option<Handle>)
    | RouteConfigsSlot(routeConfigs: Option<RouteResolver>)
    | GeoHandlerSlot(geoHandler: Option<Handle>)
    | EventBusSlot(events: Option<Handle>)
    | ObservabilitySlot(observability: Option<Handle>)
    | OnBlockSlot(onBlock: Option<Handle>)
    | ModifierSlot(responseModifier: Option<ResponseModifier>)
    | OnErrorSlot(onError: Option<Handle>)
    | CustomErrorsSlot(customErrors: map<nat, string>)
    | PassiveModeSlot(passiveMode: bool)
    | DistributedSlot(distributed: Option<Handle>)
    | DistributedBansSlot(distributedBans: Option<Handle>)
    | ExclusionsSlot(exclusions: Option<Handle>)
    | EmergencySlot(emergency: Option<EmergencyStage>)
    | HttpsSlot(https: Option<HttpsStage>)
    | RequestLoggingSlot(requestLogging: Option<Handle>)
    | HeadersAuthSlot(headersAuth: Option<HeadersAuthStage>)
    | ReferrerSlot(referrer: Option<GateStage>)
    | CustomChecksSlot(customChecks: Option<CustomChecksStage>)
    | TimeWindowSlot(timeWindow: Option<GateStage>)
    | GeoBlockingSlot(geoBlocking: Option<GeoStage>)
    | CloudSlot(cloud: Option<CloudStage>)
    | UserAgentSlot(userAgent: Option<UserAgentStage>)
    | ProcessorSlot(processor: Option<ResponseProcessor>)
    | ExcludePathsSlot(excludePaths: seq<string>)
    | DetectionSlot(detection: bool)
    | CloudRefreshSlot(cloudRefresh: Option<Handle>)

  /** What a builder call puts into its field. */
  function SlotOf(s: Setting): Slot
  {
    match s
    case BodyCap(v) => BodyCapSlot(v)
    case Gate(v) => GateSlot(Some(v))
    case RateLimiting(v) => RateLimitingSlot(Some(v))
    case Banning(manager, config) => BanningSlot(Some((manager, config)))
    case RouteTiers(v) => RouteTiersSlot(Some(v))
    case RouteConfigs(v) => RouteConfigsSlot(Some(v))
    case GeoHandler(v) => GeoHandlerSlot(Some(v))
    case EventBus(v) => EventBusSlot(Some(v))
    case Observability(v) => ObservabilitySlot(Some(v))
    case OnBlock(v) => OnBlockSlot(Some(v))
    case Modifier(v) => ModifierSlot(Some(v))
    case OnError(v) => OnErrorSlot(Some(v))
    case CustomErrors(v) => CustomErrorsSlot(v)
    case PassiveMode(v) => PassiveModeSlot(v)
    case Distributed(v) => DistributedSlot(Some(v))
    case DistributedBans(v) => DistributedBansSlot(Some(v))
    case Exclusions(v) => ExclusionsSlot(Some(v))
    case Emergency(v) => EmergencySlot(Some(v))
    case Https(v) => HttpsSlot(Some(v))
    case RequestLogging(v) => RequestLoggingSlot(Some(v))
    case HeadersAuth(v) => HeadersAuthSlot(Some(v))
    case Referrer(v) => ReferrerSlot(Some(v))
    case CustomChecks(v) => CustomChecksSlot(Some(v))
    case TimeWindow(v) => TimeWindowSlot(Some(v))
    case GeoBlocking(v) => GeoBlockingSlot(Some(v))
    case Cloud(v) => CloudSlot(Some(v))
    case UserAgent(v) => UserAgentSlot(Some(v))
    case Processor(v) => ProcessorSlot(Some(v))
    case ExcludePaths(v) => ExcludePathsSlot(v)
    case Detection(v) => DetectionSlot(v)
    case CloudRefresh(v) => CloudRefreshSlot(Some(v))
  }

  function BansHeld(l: GuardLayer): Option<(IpBanManager, IpBanConfig)>
  {
    if l.banState.Some? then Some((l.banState.value.manager, l.banState.value.config)) else None
  }

  /** What a layer holds in a field. */
  function Read(l: GuardLayer, f: Field): Slot
  {
    match f
    case FBodyCap => BodyCapSlot(l.bodyCap)
    case FGate => GateSlot(l.ipGate)
    case FRateLimiting => RateLimitingSlot(l.rateLimiter)
    case FBanning => BanningSlot(BansHeld(l))
    case FRouteTiers => RouteTiersSlot(l.routeTiers)
    case FRouteConfigs => RouteConfigsSlot(l.routeConfigs)
    case FGeoHandler => GeoHandlerSlot(l.geoHandler)
    case FEventBus => EventBusSlot(l.events)
    case FObservability => ObservabilitySlot(l.observability)
    case FOnBlock => OnBlockSlot(l.onBlock)
    case FModifier => ModifierSlot(l.responseModifier)
    case FOnError => OnErrorSlot(l.onError)
    case FCustomErrors => CustomErrorsSlot(l.customErrors)
    case FPassiveMode => PassiveModeSlot(l.passiveMode)
    case FDistributed => DistributedSlot(l.distributed)
    case FDistributedBans => DistributedBansSlot(l.distributedBans)
    case FExclusions => ExclusionsSlot(l.exclusions)
    case FEmergency => EmergencySlot(l.emergency)
    case FHttps => HttpsSlot(l.https)
    case FRequestLogging => RequestLoggingSlot(l.requestLogging)
    case FHeadersAuth => HeadersAuthSlot(l.headersAuth)
    case FReferrer => ReferrerSlot(l.referrer)
    case FCustomChecks => CustomChecksSlot(l.customChecks)
    case FTimeWindow => TimeWindowSlot(l.timeWindow)
    case FGeoBlocking => GeoBlockingSlot(l.geoBlocking)
    case FCloud => CloudSlot(l.cloud)
    case FUserAgent => UserAgentSlot(l.userAgent)
    case FProcessor => ProcessorSlot(l.processor)
    case FExcludePaths => ExcludePathsSlot(l.excludePaths)
    case FDetection => DetectionSlot(l.detection)
    case FCloudRefresh => CloudRefreshSlot(l.cloudRefresh)
  }

  /** The fields in four groups, each written apart. */
  datatype Group = Stores | Hooks | Checks | Responses

  function GroupOf(f: Field): Group
  {
    match f
    case FBodyCap => Stores case FGate => Stores case FRateLimiting => Stores case FBanning => Stores case
    FRouteTiers => Stores case FRouteConfigs => Stores case FGeoHandler => Stores case FEventBus => Stores
    case FObservability => Hooks case FOnBlock => Hooks case FModifier => Hooks case FOnError => Hooks case
    FCustomErrors => Hooks case FPassiveMode => Hooks case FDistributed => Hooks case FDistributedBans => Hooks
    case FExclusions => Checks case FEmergency => Checks case FHttps => Checks case FRequestLogging => Checks
    case FHeadersAuth => Checks case FReferrer => Checks case FCustomChecks => Checks case FTimeWindow => Checks
    case FGeoBlocking => Responses case FCloud => Responses case FUserAgent => Responses case FProcessor =>
    Responses case FExcludePaths => Responses case FDetection => Responses case FCloudRefresh => Responses
  }

  function WithStores(l: GuardLayer, s: Setting): GuardLayer
    requires GroupOf(FieldOf(s)) == Stores && !s.Banning?
  {
    match s
    case BodyCap(v) => l.(bodyCap := v)
    case Gate(v) => l.(ipGate := Some(v))
    case RateLimiting(v) => l.(rateLimiter := Some(v))
    case RouteTiers(v) => l.(routeTiers := Some(v))
    case RouteConfigs(v) => l.(routeConfigs := Some(v))
    case GeoHandler(v) => l.(geoHandler := Some(v))
    case EventBus(v) => l.(events := Some(v))
  }

  function WithHooks(l: GuardLayer, s: Setting): GuardLayer
    requires GroupOf(FieldOf(s)) == Hooks && !s.Banning?
  {
    match s
    case Observability(v) => l.(observability := Some(v))
    case OnBlock(v) => l.(onBlock := Some(v))
    case Modifier(v) => l.(responseModifier := Some(v))
    case OnError(v) => l.(onError := Some(v))
    case CustomErrors(v) => l.(customErrors := v)
    case PassiveMode(v) => l.(passiveMode := v)
    case Distributed(v) => l.(distributed := Some(v))
    case DistributedBans(v) => l.(distributedBans := Some(v))
  }

  function WithChecks(l: GuardLayer, s: Setting): GuardLayer
    requires GroupOf(FieldOf(s)) == Checks && !s.Banning?
  {
    match s
    case Exclusions(v) => l.(exclusions := Some(v))
    case Emergency(v) => l.(emergency := Some(v))
    case Https(v) => l.(https := Some(v))
    case RequestLogging(v) => l.(requestLogging := Some(v))
    case HeadersAuth(v) => l.(headersAuth := Some(v))
    case Referrer(v) => l.(referrer := Some(v))
    case CustomChecks(v) => l.(customChecks := Some(v))
    case TimeWindow(v) => l.(timeWindow := Some(v))
  }

  function WithResponses(l: GuardLayer, s: Setting): GuardLayer
    requires GroupOf(FieldOf(s)) == Responses && !s.Banning?
  {
    match s
    case GeoBlocking(v) => l.(geoBlocking := Some(v))
    case Cloud(v) => l.(cloud := Some(v))
    case UserAgent(v) => l.(userAgent := Some(v))
    case Processor(v) => l.(processor := Some(v))
    case ExcludePaths(v) => l.(excludePaths := v)
    case Detection(v) => l.(detection := v)
    case CloudRefresh(v) => l.(cloudRefresh := Some(v))
  }

  /** One builder call but for `with_ip_banning`, which allocates. */
  function With(l: GuardLayer, s: Setting): GuardLayer
    requires !s.Banning?
  {
    match GroupOf(FieldOf(s))
    case Stores => WithStores(l, s)
    case Hooks => WithHooks(l, s)
    case Checks => WithChecks(l, s)
    case Responses => WithResponses(l, s)
  }

  /** `with_ip_banning`: the violation counters are made inside the call. */
  method WithIpBanning(l: GuardLayer, manager: IpBanManager, config: IpBanConfig) returns (r: GuardLayer)
    ensures r.banState.Some? && r == l.(banState := Some(BanState(manager, r.banState.value.counters, config)))
    ensures fresh(r.banState.value.counters) && r.banState.value.counters.counts == map[]
  {
    var counters := new ViolationCounters();
    r := l.(banState := Some(BanState(manager, counters, config)));
  }

  /** The last call that writes the field. */
  function LastWrite(calls: seq<Setting>, f: Field): Option<Setting>
  {
    if calls == [] then None
    else
      var later := LastWrite(calls[1..], f);
      if later.Some? then later else if FieldOf(calls[0]) == f then Some(calls[0]) else None
  }

  lemma {:induction false} LastWriteOfLonger(calls: seq<Setting>, s: Setting, f: Field)
    ensures LastWrite(calls + [s], f) == if FieldOf(s) == f then Some(s) else LastWrite(calls, f)
  {
    hide FieldOf;
    if calls == [] {
      assert (calls + [s])[1..] == [];
    } else {
      assert (calls + [s])[0] == calls[0] && (calls + [s])[1..] == calls[1..] + [s];
      LastWriteOfLonger(calls[1..], s, f);
    }
  }

  /** The layer holds in the field what the call wrote, or what it held before. */
  ghost predicate Lands(l: GuardLayer, s: Setting, f: Field, r: GuardLayer)
  {
    Read(r, f) == if FieldOf(s) == f then SlotOf(s) else Read(l, f)
  }

  lemma BodyCapLands(l: GuardLayer, v: nat, f: Field)
    ensures Lands(l, BodyCap(v), f, l.(bodyCap := v))
  {
  }

  lemma GateLands(l: GuardLayer, v: IpGate, f: Field)
    ensures Lands(l, Gate(v), f, l.(ipGate := Some(v)))
  {
  }

  lemma RateLimitingLands(l: GuardLayer, v: RateLimiter, f: Field)
    ensures Lands(l, RateLimiting(v), f, l.(rateLimiter := Some(v)))
  {
  }

  lemma RouteTiersLands(l: GuardLayer, v: Handle, f: Field)
    ensures Lands(l, RouteTiers(v), f, l.(routeTiers := Some(v)))
  {
  }

  lemma RouteConfigsLands(l: GuardLayer, v: RouteResolver, f: Field)
    ensures Lands(l, RouteConfigs(v), f, l.(routeConfigs := Some(v)))
  {
  }

  lemma GeoHandlerLands(l: GuardLayer, v: Handle, f: Field)
    ensures Lands(l, GeoHandler(v), f, l.(geoHandler := Some(v)))
  {
  }

  lemma EventBusLands(l: GuardLayer, v: Handle, f: Field)
    ensures Lands(l, EventBus(v), f, l.(events := Some(v)))
  {
  }

  lemma StoresLand(l: GuardLayer, s: Setting, f: Field)
    requires GroupOf(FieldOf(s)) == Stores && !s.Banning?
    ensures Lands(l, s, f, WithStores(l, s))
    ensures WithStores(l, s).stage == l.stage && WithStores(l, s).banState == l.banState
  {
    hide Lands;
    match s {
      case BodyCap(v) => BodyCapLands(l, v, f);
      case Gate(v) => GateLands(l, v, f);
      case RateLimiting(v) => RateLimitingLands(l, v, f);
      case RouteTiers(v) => RouteTiersLands(l, v, f);
      case RouteConfigs(v) => RouteConfigsLands(l, v, f);
      case GeoHandler(v) => GeoHandlerLands(l, v, f);
      case EventBus(v) => EventBusLands(l, v, f);
    }
  }

  lemma ObservabilityLands(l: GuardLayer, v: Handle, f: Field)
    ensures Lands(l, Observability(v), f, l.(observability := Some(v)))
  {
  }

  lemma OnBlockLands(l: GuardLayer, v: Handle, f: Field)
    ensures Lands(l, OnBlock(v), f, l.(onBlock := Some(v)))
  {
  }

  lemma ModifierLands(l: GuardLayer, v: ResponseModifier, f: Field)
    ensures Lands(l, Modifier(v), f, l.(responseModifier := Some(v)))
  {
  }

  lemma OnErrorLands(l: GuardLayer, v: Handle, f: Field)
    ensures Lands(l, OnError(v), f, l.(onError := Some(v)))
  {
  }

  lemma CustomErrorsLands(l: GuardLayer, v: map<nat, string>, f: Field)
    ensures Lands(l, CustomErrors(v), f, l.(customErrors := v))
  {
  }

  lemma PassiveModeLands(l: GuardLayer, v: bool, f: Field)
    ensures Lands(l, PassiveMode(v), f, l.(passiveMode := v))
  {
  }

  lemma DistributedLands(l: GuardLayer, v: Handle, f: Field)
    ensures Lands(l, Distributed(v), f, l.(distributed := Some(v)))
  {
  }

  lemma DistributedBansLands(l: GuardLayer, v: Handle, f: Field)
    ensures Lands(l, DistributedBans(v), f, l.(distributedBans := Some(v)))
  {
  }

  lemma HooksLand(l: GuardLayer, s: Setting, f: Field)
    requires GroupOf(FieldOf(s)) == Hooks && !s.Banning?
    ensures Lands(l, s, f, WithHooks(l, s))
    ensures WithHooks(l, s).stage == l.stage && WithHooks(l, s).banState == l.banState
  {
    hide Lands;
    match s {
      case Observability(v) => ObservabilityLands(l, v, f);
      case OnBlock(v) => OnBlockLands(l, v, f);
      case Modifier(v) => ModifierLands(l, v, f);
      case OnError(v) => OnErrorLands(l, v, f);
      case CustomErrors(v) => CustomErrorsLands(l, v, f);
      case PassiveMode(v) => PassiveModeLands(l, v, f);
      case Distributed(v) => DistributedLands(l, v, f);
      case DistributedBans(v) => DistributedBansLands(l, v, f);
    }
  }

  lemma ExclusionsLands(l: GuardLayer, v: Handle, f: Field)
    ensures Lands(l, Exclusions(v), f, l.(exclusions := Some(v)))
  {
  }

  lemma EmergencyLands(l: GuardLayer, v: EmergencyStage, f: Field)
    ensures Lands(l, Emergency(v), f, l.(emergency := Some(v)))
  {
  }

  lemma HttpsLands(l: GuardLayer, v: HttpsStage, f: Field)
    ensures Lands(l, Https(v), f, l.(https := Some(v)))
  {
  }

  lemma RequestLoggingLands(l: GuardLayer, v: Handle, f: Field)
    ensures Lands(l, RequestLogging(v), f, l.(requestLogging := Some(v)))
  {
  }

  lemma HeadersAuthLands(l: GuardLayer, v: HeadersAuthStage, f: Field)
    ensures Lands(l, HeadersAuth(v), f, l.(headersAuth := Some(v)))
  {
  }

  lemma ReferrerLands(l: GuardLayer, v: GateStage, f: Field)
    ensures Lands(l, Referrer(v), f, l.(referrer := Some(v)))
  {
  }

  lemma CustomChecksLands(l: GuardLayer, v: CustomChecksStage, f: Field)
    ensures Lands(l, CustomChecks(v), f, l.(customChecks := Some(v)))
  {
  }

  lemma TimeWindowLands(l: GuardLayer, v: GateStage, f: Field)
    ensures Lands(l, TimeWindow(v), f, l.(timeWindow := Some(v)))
  {
  }

  lemma ChecksLand(l: GuardLayer, s: Setting, f: Field)
    requires GroupOf(FieldOf(s)) == Checks && !s.Banning?
    ensures Lands(l, s, f, WithChecks(l, s))
    ensures WithChecks(l, s).stage == l.stage && WithChecks(l, s).banState == l.banState
  {
    hide Lands;
    match s {
      case Exclusions(v) => ExclusionsLands(l, v, f);
      case Emergency(v) => EmergencyLands(l, v, f);
      case Https(v) => HttpsLands(l, v, f);
      case RequestLogging(v) => RequestLoggingLands(l, v, f);
      case HeadersAuth(v) => HeadersAuthLands(l, v, f);
      case Referrer(v) => ReferrerLands(l, v, f);
      case CustomChecks(v) => CustomChecksLands(l, v, f);
      case TimeWindow(v) => TimeWindowLands(l, v, f);
    }
  }

  lemma GeoBlockingLands(l: GuardLayer, v: GeoStage, f: Field)
    ensures Lands(l, GeoBlocking(v), f, l.(geoBlocking := Some(v)))
  {
  }

  lemma CloudLands(l: GuardLayer, v: CloudStage, f: Field)
    ensures Lands(l, Cloud(v), f, l.(cloud := Some(v)))
  {
  }

  lemma UserAgentLands(l: GuardLayer, v: UserAgentStage, f: Field)
    ensures Lands(l, UserAgent(v), f, l.(userAgent := Some(v)))
  {
  }

  lemma ProcessorLands(l: GuardLayer, v: ResponseProcessor, f: Field)
    ensures Lands(l, Processor(v), f, l.(processor := Some(v)))
  {
  }

  lemma ExcludePathsLands(l: GuardLayer, v: seq<string>, f: Field)
    ensures Lands(l, ExcludePaths(v), f, l.(excludePaths := v))
  {
  }

  lemma DetectionLands(l: GuardLayer, v: bool, f: Field)
    ensures Lands(l, Detection(v), f, l.(detection := v))
  {
  }

  lemma CloudRefreshLands(l: GuardLayer, v: Handle, f: Field)
    ensures Lands(l, CloudRefresh(v), f, l.(cloudRefresh := Some(v)))
  {
  }

  lemma ResponsesLand(l: GuardLayer, s: Setting, f: Field)
    requires GroupOf(FieldOf(s)) == Responses && !s.Banning?
    ensures Lands(l, s, f, WithResponses(l, s))
    ensures WithResponses(l, s).stage == l.stage && WithResponses(l, s).banState == l.banState
  {
    hide Lands;
    match s {
      case GeoBlocking(v) => GeoBlockingLands(l, v, f);
      case Cloud(v) => CloudLands(l, v, f);
      case UserAgent(v) => UserAgentLands(l, v, f);
      case Processor(v) => ProcessorLands(l, v, f);
      case ExcludePaths(v) => ExcludePathsLands(l, v, f);
      case Detection(v) => DetectionLands(l, v, f);
      case CloudRefresh(v) => CloudRefreshLands(l, v, f);
    }
  }

  /** A builder call writes its own field and no other. */
  lemma WithLands(l: GuardLayer, s: Setting, f: Field)
    requires !s.Banning?
    ensures Lands(l, s, f, With(l, s))
    ensures With(l, s).stage == l.stage && With(l, s).banState == l.banState
  {
    hide WithStores, WithHooks, WithChecks, WithResponses, Lands, FieldOf, GroupOf;
    match GroupOf(FieldOf(s)) {
      case Stores => StoresLand(l, s, f);
      case Hooks => HooksLand(l, s, f);
      case Checks => ChecksLand(l, s, f);
      case Responses => ResponsesLand(l, s, f);
    }
  }

  lemma BanningLands(l: GuardLayer, s: Setting, f: Field, counters: ViolationCounters)
    requires s.Banning?
    ensures Lands(l, s, f, l.(banState := Some(BanState(s.manager, counters, s.config))))
  {
  }

  /** Any builder call. */
  method Apply(l: GuardLayer, s: Setting) returns (r: GuardLayer)
    ensures forall f: Field :: Lands(l, s, f, r)
    ensures r.stage == l.stage
    ensures s.Banning? ==>
      r.banState.Some? && fresh(r.banState.value.counters) && r.banState.value.counters.counts == map[]
    ensures !s.Banning? ==> r.banState == l.banState
  {
    hide Lands, With;
    if s.Banning? {
      r := WithIpBanning(l, s.manager, s.config);
      forall f: Field ensures Lands(l, s, f, r) {
        BanningLands(l, s, f, r.banState.value.counters);
      }
    } else {
      r := With(l, s);
      WithLands(l, s, FBodyCap);
      forall f: Field ensures Lands(l, s, f, r) {
        WithLands(l, s, f);
      }
    }
  }

  /** The layer holds in every field the last value written to it. */
  ghost predicate Holds(l: GuardLayer, calls: seq<Setting>, r: GuardLayer)
  {
    forall f: Field :: Read(r, f) == if LastWrite(calls, f).Some? then SlotOf(LastWrite(calls, f).value) else Read(l, f)
  }

  lemma HoldsLonger(l: GuardLayer, calls: seq<Setting>, m: GuardLayer, s: Setting, r: GuardLayer)
    requires Holds(l, calls, m) && forall f: Field :: Lands(m, s, f, r)
    ensures Holds(l, calls + [s], r)
  {
    hide Read, FieldOf, SlotOf, LastWrite;
    forall f: Field
      ensures Read(r, f) == if LastWrite(calls + [s], f).Some? then SlotOf(LastWrite(calls + [s], f).value) else Read(l, f)
    {
      LastWriteOfLonger(calls, s, f);
      assert Lands(m, s, f, r);
    }
  }

  /**
   A run of builder calls. Every field ends with the last value written to it; the
   violation counters are those the last `with_ip_banning` made, new and empty.
   */
  method Build(l: GuardLayer, calls: seq<Setting>) returns (r: GuardLayer)
    ensures Holds(l, calls, r)
    ensures r.stage == l.stage
    ensures LastWrite(calls, FBanning).None? ==> r.banState == l.banState
    ensures LastWrite(calls, FBanning).Some? ==>
      r.banState.Some? && fresh(r.banState.value.counters) && r.banState.value.counters.counts == map[]
  {
    hide Read, Lands, LastWrite, Holds;
    r := l;
    NothingWritten(l);
    var k := 0;
    while k < |calls|
      invariant 0 <= k <= |calls|
      invariant Holds(l, calls[..k], r)
      invariant r.stage == l.stage
      invariant LastWrite(calls[..k], FBanning).None? ==> r.banState == l.banState
      invariant LastWrite(calls[..k], FBanning).Some? ==>
        r.banState.Some? && fresh(r.banState.value.counters) && r.banState.value.counters.counts == map[]
    {
      var next := Apply(r, calls[k]);
      HoldsLonger(l, calls[..k], r, calls[k], next);
      LastWriteOfLonger(calls[..k], calls[k], FBanning);
      assert calls[..k + 1] == calls[..k] + [calls[k]];
      r := next;
      k := k + 1;
    }
    assert calls[..k] == calls;
  }

  lemma NothingWritten(l: GuardLayer)
    ensures Holds(l, [], l) && LastWrite([], FBanning).None?
  {
  }

  /** The two layers ban with one manager and one configuration; the counters are each layer's own. */
  predicate SameBanning(a: GuardLayer, b: GuardLayer)
  {
    && (a.banState.Some? <==> b.banState.Some?)
    && (a.banState.Some? ==>
          a.banState.value.manager == b.banState.value.manager && a.banState.value.config == b.banState.value.config)
  }

  lemma FieldsAgree1(a: GuardLayer, b: GuardLayer)
    requires forall f: Field :: Read(a, f) == Read(b, f)
    ensures a.bodyCap == b.bodyCap && a.ipGate == b.ipGate && a.rateLimiter == b.rateLimiter && SameBanning(a, b)
  {
    assert Read(a, FBodyCap) == Read(b, FBodyCap);
    assert Read(a, FGate) == Read(b, FGate);
    assert Read(a, FRateLimiting) == Read(b, FRateLimiting);
    assert Read(a, FBanning) == Read(b, FBanning);
  }

  lemma FieldsAgree2(a: GuardLayer, b: GuardLayer)
    requires forall f: Field :: Read(a, f) == Read(b, f)
    ensures a.routeTiers == b.routeTiers && a.routeConfigs == b.routeConfigs && a.geoHandler == b.geoHandler && a.events == b.events
  {
    assert Read(a, FRouteTiers) == Read(b, FRouteTiers);
    assert Read(a, FRouteConfigs) == Read(b, FRouteConfigs);
    assert Read(a, FGeoHandler) == Read(b, FGeoHandler);
    assert Read(a, FEventBus) == Read(b, FEventBus);
  }

  lemma FieldsAgree3(a: GuardLayer, b: GuardLayer)
    requires forall f: Field :: Read(a, f) == Read(b, f)
    ensures a.observability == b.observability && a.onBlock == b.onBlock && a.responseModifier == b.responseModifier && a.onError == b.onError
  {
    assert Read(a, FObservability) == Read(b, FObservability);
    assert Read(a, FOnBlock) == Read(b, FOnBlock);
    assert Read(a, FModifier) == Read(b, FModifier);
    assert Read(a, FOnError) == Read(b, FOnError);
  }

  lemma FieldsAgree4(a: GuardLayer, b: GuardLayer)
    requires forall f: Field :: Read(a, f) == Read(b, f)
    ensures a.customErrors == b.customErrors && a.passiveMode == b.passiveMode && a.distributed == b.distributed && a.distributedBans == b.distributedBans
  {
    assert Read(a, FCustomErrors) == Read(b, FCustomErrors);
    assert Read(a, FPassiveMode) == Read(b, FPassiveMode);
    assert Read(a, FDistributed) == Read(b, FDistributed);
    assert Read(a, FDistributedBans) == Read(b, FDistributedBans);
  }

  lemma FieldsAgree5(a: GuardLayer, b: GuardLayer)
    requires forall f: Field :: Read(a, f) == Read(b, f)
    ensures a.exclusions == b.exclusions && a.emergency == b.emergency && a.https == b.https && a.requestLogging == b.requestLogging
  {
    assert Read(a, FExclusions) == Read(b, FExclusions);
    assert Read(a, FEmergency) == Read(b, FEmergency);
    assert Read(a, FHttps) == Read(b, FHttps);
    assert Read(a, FRequestLogging) == Read(b, FRequestLogging);
  }

  lemma FieldsAgree6(a: GuardLayer, b: GuardLayer)
    requires forall f: Field :: Read(a, f) == Read(b, f)
    ensures a.headersAuth == b.headersAuth && a.referrer == b.referrer && a.customChecks == b.customChecks && a.timeWindow == b.timeWindow
  {
    assert Read(a, FHeadersAuth) == Read(b, FHeadersAuth);
    assert Read(a, FReferrer) == Read(b, FReferrer);
    assert Read(a, FCustomChecks) == Read(b, FCustomChecks);
    assert Read(a, FTimeWindow) == Read(b, FTimeWindow);
  }

  lemma FieldsAgree7(a: GuardLayer, b: GuardLayer)
    requires forall f: Field :: Read(a, f) == Read(b, f)
    ensures a.geoBlocking == b.geoBlocking && a.cloud == b.cloud && a.userAgent == b.userAgent && a.processor == b.processor
  {
    assert Read(a, FGeoBlocking) == Read(b, FGeoBlocking);
    assert Read(a, FCloud) == Read(b, FCloud);
    assert Read(a, FUserAgent) == Read(b, FUserAgent);
    assert Read(a, FProcessor) == Read(b, FProcessor);
  }

  lemma FieldsAgree8(a: GuardLayer, b: GuardLayer)
    requires forall f: Field :: Read(a, f) == Read(b, f)
    ensures a.excludePaths == b.excludePaths && a.detection == b.detection && a.cloudRefresh == b.cloudRefresh
  {
    assert Read(a, FExcludePaths) == Read(b, FExcludePaths);
    assert Read(a, FDetection) == Read(b, FDetection);
    assert Read(a, FCloudRefresh) == Read(b, FCloudRefresh);
  }

  /** A layer is its fields, but for the counters. */
  lemma FieldsDetermineLayer(a: GuardLayer, b: GuardLayer)
    requires forall f: Field :: Read(a, f) == Read(b, f)
    requires a.stage == b.stage
    ensures b == a.(banState := b.banState) && SameBanning(a, b)
  {
    FieldsAgree1(a, b);
    FieldsAgree2(a, b);
    FieldsAgree3(a, b);
    FieldsAgree4(a, b);
    FieldsAgree5(a, b);
    FieldsAgree6(a, b);
    FieldsAgree7(a, b);
    FieldsAgree8(a, b);
  }

  /** Runs with equal last writes hold the same in every field. */
  lemma EqualLastWrites(l: GuardLayer, s: seq<Setting>, t: seq<Setting>, a: GuardLayer, b: GuardLayer)
    requires forall f: Field :: LastWrite(s, f) == LastWrite(t, f)
    requires Holds(l, s, a) && Holds(l, t, b)
    ensures forall f: Field :: Read(a, f) == Read(b, f)
  {
    hide Read, LastWrite;
  }

  // ---- the stage ---------------------------------------------------------------------

  function KnobsOf(l: GuardLayer): StageKnobs
  {
    StageKnobs(
      if l.rateLimiter.Some? then l.rateLimiter.value.config else LIMITER_OFF,
      if l.banState.Some? then l.banState.value.config else BANNING_OFF,
      l.passiveMode, l.customErrors, l.routeTiers, l.geoHandler, l.events, l.observability, l.onBlock,
      l.distributed, l.distributedBans)
  }

  /** The stage carries the layer's knobs and the layer's own stores where it has them. */
  ghost predicate BuiltFrom(stage: RateLimitStage, l: GuardLayer)
  {
    && stage.knobs == StageKnobs(
         rateLimit := match l.rateLimiter { case Some(limiter) => limiter.config
                                            case None => RateLimitConfig(enabled := false, knobs := DefaultLimits) },
         ipBan := match l.banState { case Some(bans) => bans.config
                                     case None => IpBanConfig(enabled := false, knobs := DefaultBans) },
         passiveMode := l.passiveMode, customErrors := l.customErrors, routeTiers := l.routeTiers,
         geoHandler := l.geoHandler, events := l.events, observability := l.observability, onBlock := l.onBlock,
         distributed := l.distributed, distributedBans := l.distributedBans)
    && (l.rateLimiter.Some? ==> stage.limiter == l.rateLimiter.value)
    && (l.banState.Some? ==>
          stage.manager == l.banState.value.manager && stage.counters == l.banState.value.counters)
  }

  /** The stores a layer does not bring are empty in its stage. */
  ghost predicate EmptyWhereMissing(stage: RateLimitStage, l: GuardLayer)
    reads stage.limiter, stage.manager, stage.counters
  {
    && (l.rateLimiter.None? ==> stage.limiter.windows == map[])
    && (l.banState.None? ==> stage.manager.table == map[] && stage.counters.counts == map[])
  }

  /** `build_stage`: installed stores are injected, missing ones are made for this stage alone. */
  method BuildStage(l: GuardLayer) returns (stage: RateLimitStage)
    ensures BuiltFrom(stage, l) && EmptyWhereMissing(stage, l)
    ensures l.rateLimiter.None? ==> fresh(stage.limiter)
    ensures l.banState.None? ==> fresh(stage.manager) && fresh(stage.counters)
  {
    var knobs := KnobsOf(l);
    var limiter := new RateLimiter(knobs.rateLimit);
    var manager := new IpBanManager();
    var counters := new ViolationCounters();
    stage := RateLimitStage(knobs, limiter, manager, counters);
    if l.rateLimiter.Some? {
      stage := stage.(limiter := l.rateLimiter.value);
    }
    if l.banState.Some? {
      stage := stage.(manager := l.banState.value.manager, counters := l.banState.value.counters);
    }
  }

  /** `Layer::layer`: the layer a service holds always has its stage. */
  method Layered(l: GuardLayer) returns (layered: GuardLayer)
    ensures layered.stage.Some?
    ensures layered == l.(stage := layered.stage)
    ensures l.stage.Some? ==> layered == l
    ensures l.stage.None? ==> BuiltFrom(layered.stage.value, l) && EmptyWhereMissing(layered.stage.value, l)
    ensures l.stage.None? && l.rateLimiter.None? ==> fresh(layered.stage.value.limiter)
    ensures l.stage.None? && l.banState.None? ==>
      fresh(layered.stage.value.manager) && fresh(layered.stage.value.counters)
  {
    layered := l;
    if layered.stage.None? {
      var stage := BuildStage(l);
      layered := layered.(stage := Some(stage));
    }
  }

  /**
   Two builder runs with equal last writes. Both end in a service whose stage
   exists and is built from the last value written to each field. The two layers
   are equal if and only if no run installed banning: each `with_ip_banning` makes
   its own counters, while limiter, ban manager and everything else are shared.
   */
  method BuilderRuns(l: GuardLayer, s: seq<Setting>, t: seq<Setting>) returns (a: GuardLayer, b: GuardLayer)
    requires forall f: Field :: LastWrite(s, f) == LastWrite(t, f)
    requires l.stage.None?
    ensures a.stage.Some? && b.stage.Some? && a.stage.value.knobs == b.stage.value.knobs
    ensures Holds(l, s, a) && Holds(l, t, b)
    ensures BuiltFrom(a.stage.value, a) && BuiltFrom(b.stage.value, b)
    ensures b.(stage := None) == a.(stage := None, banState := b.banState) && SameBanning(a, b)
    ensures a.(stage := None) == b.(stage := None) <==> LastWrite(s, FBanning).None?
    ensures a.rateLimiter.Some? ==> a.stage.value.limiter == b.stage.value.limiter
    ensures a.banState.Some? ==> a.stage.value.manager == b.stage.value.manager
    ensures LastWrite(s, FBanning).Some? ==> a.stage.value.counters != b.stage.value.counters
  {
    hide Read, LastWrite, Holds;
    var c := Build(l, s);
    var d := Build(l, t);
    EqualLastWrites(l, s, t, c, d);
    FieldsDetermineLayer(c, d);
    a := Layered(c);
    b := Layered(d);
    StageIsNoField(l, s, c, a);
    StageIsNoField(l, t, d, b);
  }

  /** Wrapping writes no field. */
  lemma StageIsNoField(l: GuardLayer, calls: seq<Setting>, c: GuardLayer, r: GuardLayer)
    requires Holds(l, calls, c) && r == c.(stage := r.stage)
    ensures Holds(l, calls, r)
  {
    hide LastWrite;
    forall f: Field ensures Read(r, f) == Read(c, f) {
    }
  }

  function LimiterOf(l: GuardLayer): set<object>
  {
    if l.rateLimiter.Some? then {l.rateLimiter.value} else {}
  }

  /** `reset`: the installed limiter drops its windows; nothing else is written. */
  method Reset(l: GuardLayer)
    modifies LimiterOf(l)
    ensures l.rateLimiter.Some? ==> l.rateLimiter.value.windows == map[]
  {
    if l.rateLimiter.Some? {
      l.rateLimiter.value.Reset();
    }
  }

  // ---- the unified configuration -----------------------------------------------------

  datatype ConfigError = IpGateError | RateLimitError | UserAgentError | StageError

  /** The configuration fields the layer consumes; log and detection knobs are one handle each. */
  datatype SecurityConfig = SecurityConfig(
    fullScanCap: nat,
    passiveMode: bool,
    detection: bool,
    excludePaths: seq<string>,
    whitelist: Option<seq<string>>,
    blacklist: seq<string>,
    exemptIps: seq<string>,
    rateLimiting: bool,
    rateLimit: nat,
    rateLimitWindow: nat,
    ipBanning: bool,
    ipBan: IpBanConfig,
    enforceHttps: bool,
    trustForwardedProto: bool,
    emergencyMode: bool,
    emergencyWhitelist: seq<string>,
    customErrors: map<nat, string>,
    onBlock: Option<Handle>,
    exclusions: Option<Handle>,
    logRequestLevel: Option<Handle>,
    observability: Option<Handle>,
    blockedUserAgents: seq<string>,
    securityHeaders: bool,
    cors: Option<CorsConfig>,
    globalRules: seq<Handle>)

  /** The engine constructors the configuration runs through; `None` is a refusal. */
  datatype Constructors = Constructors(
    ipGate: (seq<string>, seq<string>, seq<string>) -> Option<IpGate>,
    https: (bool, bool, bool) -> Option<HttpsStage>,
    emergency: (bool, bool, seq<string>) -> Option<EmergencyStage>,
    userAgent: (seq<string>, IpBanConfig, bool) -> Result<UserAgentStage, ConfigError>)

  predicate WantsGate(c: SecurityConfig)
  {
    c.whitelist.Some? || c.blacklist != [] || c.exemptIps != []
  }

  predicate WantsEmergency(c: SecurityConfig) { c.emergencyMode || c.emergencyWhitelist != [] }

  predicate WantsProcessor(c: SecurityConfig)
  {
    c.securityHeaders || c.cors.Some? || c.globalRules != []
  }

  function GateOf(k: Constructors, c: SecurityConfig): Option<IpGate>
  {
    k.ipGate(if c.whitelist.Some? then c.whitelist.value else [], c.blacklist, c.exemptIps)
  }

  function HttpsOf(k: Constructors, c: SecurityConfig): Option<HttpsStage>
  {
    k.https(c.enforceHttps, c.trustForwardedProto, c.passiveMode)
  }

  function EmergencyOf(k: Constructors, c: SecurityConfig): Option<EmergencyStage>
  {
    k.emergency(c.emergencyMode, c.passiveMode, c.emergencyWhitelist)
  }

  function UserAgentOf(k: Constructors, c: SecurityConfig): Result<UserAgentStage, ConfigError>
  {
    k.userAgent(c.blockedUserAgents, c.ipBan, c.passiveMode)
  }

  /** The address gate or the limiter refuses, in this order. */
  function AccessRefusal(k: Constructors, c: SecurityConfig): Option<ConfigError>
  {
    if (c.whitelist.Some? || c.blacklist != [] || c.exemptIps != [])
       && k.ipGate(match c.whitelist { case Some(list) => list case None => [] }, c.blacklist, c.exemptIps).None?
    then Some(IpGateError)
    else if c.rateLimiting && (c.rateLimit == 0 || c.rateLimitWindow == 0) then Some(RateLimitError)
    else None
  }

  /** The https stage, the emergency stage or the user-agent stage refuses, in this order. */
  function StagesRefusal(k: Constructors, c: SecurityConfig): Option<ConfigError>
  {
    if k.https(c.enforceHttps, c.trustForwardedProto, c.passiveMode).None? then Some(StageError)
    else if (c.emergencyMode || c.emergencyWhitelist != [])
            && k.emergency(c.emergencyMode, c.passiveMode, c.emergencyWhitelist).None? then Some(StageError)
    else if c.blockedUserAgents == [] then None
    else
      match k.userAgent(c.blockedUserAgents, c.ipBan, c.passiveMode)
      case Err(error) => Some(error)
      case Ok(_) => None
  }

  /** The first constructor that refuses. */
  function Refusal(k: Constructors, c: SecurityConfig): Option<ConfigError>
  {
    if AccessRefusal(k, c).Some? then AccessRefusal(k, c) else StagesRefusal(k, c)
  }

  // What each knob of the configuration becomes: which constructor it is an argument
  // of, and which part of the layer is there because of it.

  ghost predicate AccessConfigured(k: Constructors, c: SecurityConfig, l: GuardLayer)
  {
    && l.ipGate == (if c.whitelist.None? && c.blacklist == [] && c.exemptIps == [] then None
                    else k.ipGate(match c.whitelist { case Some(list) => list case None => [] }, c.blacklist, c.exemptIps))
    && (match l.rateLimiter
        case None => !c.rateLimiting
        case Some(limiter) =>
          c.rateLimiting && c.rateLimit > 0 && c.rateLimitWindow > 0
          && limiter.config == RateLimitConfig(enabled := true, knobs := Limits(limit := c.rateLimit, window := c.rateLimitWindow)))
    && (match l.banState
        case None => !c.ipBanning
        case Some(bans) => c.ipBanning && bans.config == c.ipBan)
  }

  ghost predicate StagesConfigured(k: Constructors, c: SecurityConfig, l: GuardLayer)
  {
    && l.https.Some? && l.https == k.https(c.enforceHttps, c.trustForwardedProto, c.passiveMode)
    && l.emergency == (if !c.emergencyMode && c.emergencyWhitelist == [] then None
                       else k.emergency(c.emergencyMode, c.passiveMode, c.emergencyWhitelist))
    && (match l.userAgent
        case None => c.blockedUserAgents == []
        case Some(stage) =>
          c.blockedUserAgents != [] && k.userAgent(c.blockedUserAgents, c.ipBan, c.passiveMode) == Ok(stage))
  }

  predicate BasicsConfigured(c: SecurityConfig, l: GuardLayer)
  {
    && l.bodyCap == c.fullScanCap && l.passiveMode == c.passiveMode && l.detection == c.detection
    && l.excludePaths == c.excludePaths
  }

  predicate HooksConfigured(c: SecurityConfig, l: GuardLayer)
  {
    && l.customErrors == c.customErrors && l.onBlock == c.onBlock && l.exclusions == c.exclusions
    && l.requestLogging == c.logRequestLevel && l.observability == c.observability
  }

  predicate ProcessorConfigured(c: SecurityConfig, l: GuardLayer)
  {
    match l.processor
    case None => !c.securityHeaders && c.cors.None? && c.globalRules == []
    case Some(p) =>
      && (c.securityHeaders || c.cors.Some? || c.globalRules != [])
      && p.knobs == ProcessorKnobs(securityHeaders := if c.securityHeaders then Some(true) else None, cors := c.cors,
                                   rules := c.globalRules, passiveMode := c.passiveMode)
  }

  /** What needs an object of the host application is left to the builders. */
  predicate HostPartsMissing(l: GuardLayer)
  {
    && l.routeTiers.None? && l.routeConfigs.None? && l.geoHandler.None? && l.events.None? && l.responseModifier.None?
    && l.onError.None? && l.distributed.None? && l.distributedBans.None? && l.headersAuth.None? && l.referrer.None?
    && l.customChecks.None? && l.timeWindow.None? && l.geoBlocking.None? && l.cloud.None? && l.cloudRefresh.None?
    && l.stage.None?
  }

  /** The layer is the one the configuration describes. */
  ghost predicate Configures(k: Constructors, c: SecurityConfig, l: GuardLayer)
  {
    && AccessConfigured(k, c, l) && StagesConfigured(k, c, l) && BasicsConfigured(c, l) && HooksConfigured(c, l)
    && ProcessorConfigured(c, l) && HostPartsMissing(l)
  }

  /** The address gate, the limiter and the ban store. */
  method InstallAccess(k: Constructors, c: SecurityConfig, start: GuardLayer)
    returns (r: Result<GuardLayer, ConfigError>)
    requires start.ipGate.None? && start.rateLimiter.None? && start.banState.None?
    ensures r.Err? ==> AccessRefusal(k, c) == Some(r.error)
    ensures r.Ok? ==>
      var l := r.value;
      && AccessRefusal(k, c).None? && AccessConfigured(k, c, l)
      && l == start.(ipGate := l.ipGate, rateLimiter := l.rateLimiter, banState := l.banState)
      && (l.rateLimiter.Some? ==> fresh(l.rateLimiter.value) && l.rateLimiter.value.windows == map[])
      && (l.banState.Some? ==> fresh(l.banState.value.manager) && l.banState.value.manager.table == map[])
  {
    var layer := start;
    if WantsGate(c) {
      var gate := GateOf(k, c);
      if gate.None? {
        return Err(IpGateError);
      }
      layer := layer.(ipGate := gate);
    }
    if c.rateLimiting {
      if c.rateLimit == 0 || c.rateLimitWindow == 0 {
        return Err(RateLimitError);
      }
      var limiter := new RateLimiter(RateLimitConfig(true, Limits(c.rateLimit, c.rateLimitWindow)));
      layer := layer.(rateLimiter := Some(limiter));
    }
    if c.ipBanning {
      var manager := new IpBanManager();
      layer := WithIpBanning(layer, manager, c.ipBan);
    }
    r := Ok(layer);
  }

  /** The stages that come prebuilt from the configuration. */
  method InstallStages(k: Constructors, c: SecurityConfig, start: GuardLayer)
    returns (r: Result<GuardLayer, ConfigError>)
    requires start.emergency.None? && start.userAgent.None?
    ensures r.Err? ==> StagesRefusal(k, c) == Some(r.error)
    ensures r.Ok? ==>
      var l := r.value;
      && StagesRefusal(k, c).None? && StagesConfigured(k, c, l)
      && l == start.(https := l.https, emergency := l.emergency, userAgent := l.userAgent)
  {
    var layer := start;
    var https := HttpsOf(k, c);
    if https.None? {
      return Err(StageError);
    }
    layer := layer.(https := https);
    if WantsEmergency(c) {
      var emergency := EmergencyOf(k, c);
      if emergency.None? {
        return Err(StageError);
      }
      layer := layer.(emergency := emergency);
    }
    if c.blockedUserAgents != [] {
      var userAgent := UserAgentOf(k, c);
      if userAgent.Err? {
        return Err(userAgent.error);
      }
      layer := layer.(userAgent := Some(userAgent.value));
    }
    r := Ok(layer);
  }

  /** The hooks, overrides and log knobs that only land when they are set. */
  method InstallHooks(c: SecurityConfig, start: GuardLayer) returns (layer: GuardLayer)
    requires start.customErrors == map[] && start.onBlock.None? && start.exclusions.None?
    requires start.requestLogging.None? && start.observability.None?
    ensures layer == start.(customErrors := c.customErrors, onBlock := c.onBlock, exclusions := c.exclusions,
                            requestLogging := c.logRequestLevel, observability := c.observability)
  {
    layer := start;
    if c.customErrors != map[] {
      layer := layer.(customErrors := c.customErrors);
    }
    if c.onBlock.Some? {
      layer := layer.(onBlock := c.onBlock);
    }
    if c.exclusions.Some? {
      layer := layer.(exclusions := c.exclusions);
    }
    if c.logRequestLevel.Some? {
      layer := layer.(requestLogging := c.logRequestLevel);
    }
    if c.observability.Some? {
      layer := layer.(observability := c.observability);
    }
  }

  /** The response processor, with a tracker and a ban manager made for it alone. */
  method InstallProcessor(c: SecurityConfig, start: GuardLayer) returns (layer: GuardLayer)
    requires start.processor.None?
    ensures layer == start.(processor := layer.processor)
    ensures ProcessorConfigured(c, layer)
    ensures layer.processor.Some? ==>
      && fresh(layer.processor.value.manager) && layer.processor.value.manager.table == map[]
      && fresh(layer.processor.value.tracker)
  {
    layer := start;
    if WantsProcessor(c) {
      var tracker := new BehaviorTracker();
      var manager := new IpBanManager();
      var knobs := ProcessorKnobs(if c.securityHeaders then Some(true) else None, c.cors, c.globalRules, c.passiveMode);
      layer := layer.(processor := Some(ResponseProcessor(knobs, tracker, manager)));
    }
  }

  /** The hooks, then the processor. */
  method InstallResponse(c: SecurityConfig, start: GuardLayer) returns (layer: GuardLayer)
    requires start.customErrors == map[] && start.onBlock.None? && start.exclusions.None?
    requires start.requestLogging.None? && start.observability.None? && start.processor.None?
    ensures layer == start.(customErrors := c.customErrors, onBlock := c.onBlock, exclusions := c.exclusions,
                            requestLogging := c.logRequestLevel, observability := c.observability,
                            processor := layer.processor)
    ensures ProcessorConfigured(c, layer)
    ensures layer.processor.Some? ==>
      fresh(layer.processor.value.manager) && layer.processor.value.manager.table == map[]
  {
    var hooked := InstallHooks(c, start);
    layer := InstallProcessor(c, hooked);
  }

  /** The access parts, then the prebuilt stages. */
  method InstallChecks(k: Constructors, c: SecurityConfig) returns (r: Result<GuardLayer, ConfigError>)
    ensures r.Err? ==> Refusal(k, c) == Some(r.error)
    ensures r.Ok? ==>
      var l := r.value;
      && Refusal(k, c).None?
      && AccessConfigured(k, c, l) && StagesConfigured(k, c, l) && BasicsConfigured(c, l) && HostPartsMissing(l)
      && l.customErrors == map[] && l.onBlock.None? && l.exclusions.None? && l.requestLogging.None?
      && l.observability.None? && l.processor.None?
      && (l.rateLimiter.Some? ==> fresh(l.rateLimiter.value) && l.rateLimiter.value.windows == map[])
      && (l.banState.Some? ==> fresh(l.banState.value.manager) && l.banState.value.manager.table == map[])
  {
    hide AccessRefusal, StagesRefusal, StagesConfigured;
    var start := New(c.fullScanCap).(passiveMode := c.passiveMode, detection := c.detection,
                                     excludePaths := c.excludePaths);
    var access := InstallAccess(k, c, start);
    if access.Err? {
      return access;
    }
    r := InstallStages(k, c, access.value);
  }

  /** Hooks and processor leave the checks as they are. */
  lemma ChecksStayConfigured(k: Constructors, c: SecurityConfig, l: GuardLayer, r: GuardLayer)
    requires AccessConfigured(k, c, l) && StagesConfigured(k, c, l) && BasicsConfigured(c, l) && HostPartsMissing(l)
    requires r == l.(customErrors := r.customErrors, onBlock := r.onBlock, exclusions := r.exclusions,
                     requestLogging := r.requestLogging, observability := r.observability, processor := r.processor)
    ensures AccessConfigured(k, c, r) && StagesConfigured(k, c, r) && BasicsConfigured(c, r) && HostPartsMissing(r)
  {
  }

  /**
   `from_security_config`: the layer the configuration describes, or the first error.
   The ban stage and the response processor each get a ban manager made on the spot,
   so the two are always different objects.
   */
  method FromSecurityConfig(k: Constructors, c: SecurityConfig) returns (r: Result<GuardLayer, ConfigError>)
    ensures r.Err? ==> Refusal(k, c) == Some(r.error)
    ensures r.Ok? ==>
      var l := r.value;
      && Refusal(k, c).None? && Configures(k, c, l)
      && (l.rateLimiter.Some? ==> fresh(l.rateLimiter.value) && l.rateLimiter.value.windows == map[])
      && (l.banState.Some? ==> fresh(l.banState.value.manager) && l.banState.value.manager.table == map[])
      && (l.processor.Some? ==> fresh(l.processor.value.manager) && l.processor.value.manager.table == map[])
      && (l.banState.Some? && l.processor.Some? ==> l.banState.value.manager != l.processor.value.manager)
  {
    hide AccessConfigured, StagesConfigured, BasicsConfigured, ProcessorConfigured, HostPartsMissing;
    var staged := InstallChecks(k, c);
    if staged.Err? {
      return staged;
    }
    var layer := InstallResponse(c, staged.value);
    ChecksStayConfigured(k, c, staged.value, layer);
    r := Ok(layer);
  }
}
