# A verified model of the tower guard

The crate wraps a service in a guard: one fused pipeline of checks around a
detection engine that lives in other crates. What the crate itself decides is the
order of the checks, what each of them leaves behind, who shares which store, and a
few byte-level readers and printers. This project models those decisions and proves
what they promise. Check it with `dafny verify dfyconfig.toml`.

The engine is a record of arbitrary functions (`Engine.dfy`), so every theorem holds
for all engines; a theorem that needs a promise of the engine names it in its
`requires`. The wrapped service answers from everything it has been called with. Time
is an input.

| file | what it holds |
|---|---|
| `BodyBuffer`, `Query` with `QueryReading`, `Authority`, `Status` with `Json` | the buffering loop, the query decoder and splitter, the authority reader, the status printer with an RFC 8259 reader |
| `Engine`, `Http`, `Layer` | shared stores as heap objects, requests and facts, the layer with its builders and configuration |
| `Readings`, `Detection` | what the readers of a request find, said by position; what the detection engine is shown, end to end |
| `Pipeline` | the fused call as a state machine, one function an arm |
| `Service` | the same call on the heap: mutable locals, early returns, shared objects; each method is proved equal to its part of `Pipeline` |
| `Frames`, `Runs`, `Endings` | what every arm keeps, how a call gets to the wrapped service, what it costs and how it ends |
| `Admission`, `Questions`, `Forwarding` | what a forwarded request has met, what every stage is asked, and exactly which requests are forwarded |
| `Answers` | what the client gets from each answer: status, text, headers |
| `Configured` | from the unified configuration to the answer |
| `Traffic`, `BanTables`, `Bans` | request sequences: rate-limit budget and bans |
| `Noninterference`, `ErrorBodies`, `Bypass`, `Wildcard` | statements about two runs: gates, modifiers, custom bodies, bypass sets and the wildcard |
| `Stages`, `Agreement` | the standalone layers, their fold, and their agreement with the fused call |
| `Departures` | where the code does something else than its documentation says |

The stores are objects. `Service.GuardService.State` reads them as one value
(`Pipeline.World`) with one ban table for each manager object, so two handles to one
manager are one entry and two managers are two. A theorem about `Pipeline.Call` is
therefore a theorem about the heap by way of `Service.GuardService.Call`.

## Where the code and its documentation disagree

The model follows the code.

- The facts are taken before the gate writes its decision (`src/service.rs:153`,
  `src/service.rs:1191`). The geo, cloud and user-agent checks therefore never see it,
  although `docs/api.md:76-79` wants every later stage to skip a whitelisted or exempt
  address (`WhitelistedYetBlocked`). What they are asked instead is the decision the
  request carried on arrival (`GeoPassesExactly`, `CloudPassesExactly`,
  `AgentPassesExactly`). So a request can count on being skipped, by every stage that
  honours exemptions and whatever such a stage does with everyone else, exactly when it
  arrived exempted, or the check is bypassed or taken over (`GeoSkipsExactly`,
  `CloudSkipsExactly`, `AgentSkipsExactly`).
- The crate's `README.md:194` and `CHANGELOG.md:76` promise that passive mode never renders
  a block. The checks of a route carrier do not look at the mode
  (`PassiveModeBlocksAVisitor`); `PassiveModeForwardsExactly` says which requests passive
  mode still blocks.
- The gate is said to run before anything else (`src/service.rs:300`). The excluded paths,
  the preflight answer, the usage rules and the route's own lists run in front of it.
- `docs/api.md:86` promises a byte-identical body. An excluded path is forwarded with an
  empty one (`ExcludedPathForwardsEmptyBody`); every other forward keeps it (`FailSecure`).
- `CHANGELOG.md:74` says the custom bodies override every block. Besides the rate-limit
  stage with its own copy, they show exactly where the request gets to a gate that is not
  open, or gets to the threat block with a finding the stage does not let pass; there only
  the body differs, and everywhere else nothing does (`CustomBodiesExactly`,
  `CustomBodiesMatterExactly`, and `DeniedRouteAlwaysBlocks` for a block without them).
  Which requests get there is a condition on the request (`PassesExactly`).
- A validator status that does not exist panics in the fused service and becomes 403 in the
  standalone layer, and the fused service drops a retry delay on a geo, cloud or user-agent
  answer where the standalone layer renders it. `RenderingsAgree` says exactly which
  verdicts the two render alike.
- Adding `ip` to a bypass set skips the gate, and with it the exemption the gate would have
  granted, so a request that was forwarded can meet the rate limit
  (`SkippedGateCostsTheExemption`). `BypassExactly` says when that cannot happen.

## Model

| member | source | states |
|---|---|---|
| BodyBuffer.BufferBody | src/service.rs:1259-1279 | the loop computes the buffering outcome, for every frame sequence and cap |
| BodyBuffer.BufferMeetsSpec | src/service.rs:1259-1279 | success exactly when no frame fails and none crosses the cap; otherwise the first failing frame decides between a read error and an oversize |
| BodyBuffer.OutcomeIsUnique | src/service.rs:1259-1279 | the outcome read off the frames is unique, so the specification pins the loop down |
| BodyBuffer.BufferedIsContent | src/service.rs:1268-1278 | a buffered body is the concatenated data, within the cap, from frames without error |
| BodyBuffer.BufferWithoutErrors | src/service.rs:1264-1278 | without errors a body buffers exactly when its content fits |
| BodyBuffer.ChunkingIsInvisible | src/service.rs:1264-1278 | equal contents buffer equally however they are framed |
| BodyBuffer.TrailersChangeNothing | src/service.rs:1266 | a trailers frame anywhere changes nothing, whatever else fails |
| Query.DecodeQueryComponent | src/service.rs:1377-1398 | the loop over the lenient radix parser equals strict percent-decoding after plus replacement, and ends |
| Query.PlusArmIsUnreachable | src/service.rs:1378-1389 | once no plus sign is left the radix parser accepts two hexadecimal digits and nothing else |
| Query.PercentDecodeLength | src/service.rs:1382-1396 | the output is the input length minus two for each escape decoded |
| Query.DecodeLength | src/service.rs:1377-1398 | the same for the whole component decoder |
| Query.DecodeDistributes | src/service.rs:1326-1331 | decoding distributes over a cut if and only if no escape straddles it |
| Query.DelimitersCutCleanly | src/service.rs:1326-1331 | splitting at an ampersand or equals sign before decoding loses nothing |
| Query.ComponentRoundTrip | src/service.rs:1377-1398 | decoding undoes form-urlencoding of any octets (WHATWG URL Standard 5.2) |
| Query.PairRoundTrip | src/service.rs:1328-1331 | a serialized pair splits and decodes to itself, empty name or value included |
| Query.QueryRoundTrip | src/service.rs:1322-1332 | a serialized list of pairs comes back complete and in order |
| QueryReading.QueryReads | src/service.rs:1322-1332 | whatever a client sends: bare names with the empty value, values with further equals signs, ampersands leading, doubled or trailing; the decoded names and values come back in order |
| QueryReading.EveryQueryIsWritten | src/service.rs:1322-1332 | every query is such a list, so the reading theorem speaks about all of them |
| QueryReading.HexDigitsRead | src/service.rs:1382-1391 | a hexadecimal digit stands for its place among the digits, in either case |
| Authority.AuthorityRoundTrip | src/service.rs:1157-1166 | the bare host comes back from any RFC 3986 authority: userinfo or not, bracketed or name, decimal port or not |
| Authority.UserinfoIsDropped | src/service.rs:1158 | whatever stands in front of the last at-sign is dropped |
| Authority.EveryAuthorityIsRead | src/service.rs:1157-1166 | any text, well formed or not: what precedes the last at-sign is dropped, and the rest is read by its bracket, its port, or as it stands |
| Authority.NameWithPortExactly | src/stages.rs:215-224 | with a port, a name comes back if and only if it holds no colon and opens no bracket |
| Status.JsonString | src/status.rs:180-198 | the printing loop computes the quoted text |
| Status.JsonStringRoundTrip | src/status.rs:180-198 | an RFC 8259 reader gets every text back |
| Status.QuotedIsInjective | src/status.rs:180-198 | different texts print differently |
| Status.Payload | src/status.rs:98-162 | the loop prints a JSON document that means, in this order, the six providers with the live row of the table, or the never-loaded row where the table has none or there is no table, and the geo component: the manager's value whenever there is one, else the configured flag, else null |
| Status.DocumentRoundTrip | src/status.rs:110-162 | reading the printed document as RFC 8259 JSON returns the rows in order, any names, flags, stamps and counts |
| Status.DocumentIsInjective | src/status.rs:129-162 | equal documents come from equal rows |
| Status.GeoComponentReads | src/status.rs:98-108 | without a lifecycle manager the geo component reads as null or the configured flag |
| Layer.WithIpBanning | src/lib.rs:937-944 | banning installs the manager and the configuration with counters made inside the call, new and empty |
| Layer.Apply | src/lib.rs:809-1333 | any builder call writes its own field and no other |
| Layer.Build | src/lib.rs:809-1333 | after any builder sequence every field holds the last value written to it; the counters are those the last banning call made |
| Layer.FieldsDetermineLayer | src/lib.rs:809-1333 | layers that hold the same in every field are equal but for the counters |
| Layer.BuilderRuns | src/lib.rs:1428-1505 | two runs with equal last writes end in services with built stages, share limiter and ban manager, and are equal if and only if no run installed banning; otherwise only the counters differ |
| Layer.BuildStage | src/lib.rs:1428-1482 | the stage carries the layer's knobs and its installed stores; missing stores are fresh and empty |
| Layer.Layered | src/lib.rs:1498-1505 | a wrapped layer always has its stage and changes nothing else |
| Layer.Reset | src/lib.rs:1293-1297 | the installed limiter drops its windows, and no other object is written |
| Layer.InstallAccess | src/lib.rs:618-641 | whitelist, blacklist and exempt list reach the gate constructor in this order; gate, limiter and bans are there exactly when configured, with their knobs, and the errors come in source order |
| Layer.InstallStages | src/lib.rs:643-773 | https, emergency and user-agent stages land as configured or fail closed |
| Layer.InstallHooks | src/lib.rs:669-756 | overrides, hooks, exclusions and log knobs land as configured |
| Layer.InstallProcessor | src/lib.rs:775-799 | the response processor gets a tracker and a ban manager made for it alone |
| Layer.FromSecurityConfig | src/lib.rs:600-802 | over the fields of the configuration: which knob reaches which constructor argument, which part is present with which knobs, what stays empty, or the first error; the ban stage and the processor hold different, empty managers |
| Service.Wrap | src/lib.rs:1498-1505 | wrapping a service builds the stage, so the `expect` of the call never fires |
| Service.GuardService.RunProcessor | src/service.rs:979-991 | the processor reads the tracker and its ban table and writes both back |
| Service.GuardService.InsertPairs | src/service.rs:1014-1032 | the header loop inserts the pairs in order and skips what is no header |
| Service.GuardService.ApplyResponseProcessor | src/service.rs:972-1034 | the whole response pass on a response in place, with the stores it writes |
| Service.GuardService.FinishGenerated | src/service.rs:1038-1057 | a generated answer gets one pass |
| Service.GuardService.Forward | src/service.rs:830-859 | the request and body are handed on, an inner error passes through, an answer gets one pass |
| Service.GuardService.DenyAtGate | src/service.rs:1194-1226 | a gate denial: custom body, block hook, and two passes |
| Service.GuardService.UsageRulesArm | src/service.rs:200-223 | usage rules write the processor's stores; a ban answers 403 |
| Service.GuardService.BufferCheck | src/service.rs:409-421 | the body buffers under the effective cap, or 413 or 500 |
| Service.GuardService.BansCheck | src/service.rs:635-639 | the ban decision writes the stage's own manager and may answer |
| Service.GuardService.DecideTiers | src/service.rs:762-771 | the tiers read the gate decision from the extensions and write windows, counts and bans |
| Service.GuardService.Call | src/service.rs:148-824 | one call on the heap equals the state machine: same exit, same stores, for every request, body and state |
| Service.GuardService.Reset | src/service.rs:69-71 | the windows are dropped; bans, counts and every other store stay |
| Service.ServeByClones | src/lib.rs:887-944 | clones share every store: any interleaving over two clones ends as one service would |
| Pipeline.CallAnswers | src/service.rs:148-824 | every call ends in an answer |
| Pipeline.InputsAgree | src/service.rs:869-897 | the two readings of the processor input agree on every request |
| Frames.PassFrame | src/service.rs:972-1034 | a pass keeps the body, the limits and the stages, counts once, and writes only the processor's bans |
| Frames.StepFrame | src/service.rs:148-824 | every arm writes only the local it is about, and no arm but the last reaches the wrapped service |
| Runs.FailSecure | src/service.rs:409-421 | a forward on a path that is not excluded had its whole body read within the limit of its route or of the layer, hands on exactly the client's octets and request but for the gate decision, and was clean, not scanned by configuration, or let through by passive mode |
| Runs.ExcludedPathForwardsEmptyBody | src/service.rs:158-160 | an excluded path is always forwarded, with an empty body and without touching a limit |
| Runs.ReachesThroughForward | src/service.rs:822 | the wrapped service is reached if and only if every arm lets the request pass |
| Runs.PassesFollowTheExit | src/service.rs:934-1057 | preflight, inner error and panic cost no pass, a gate denial two, everything else one; the header event is sent at most once and only for a forward |
| Questions.MemoryAt | src/service.rs:315-820 | whatever ran before it, a stage is asked in the state it was in on arrival |
| Questions.TableAtTiers | src/service.rs:635-774 | the ban table the tiers read is the one on arrival after the usage rules and the ban decision, and nothing else |
| Questions.ChecksAtRequest | src/service.rs:554-820 | the second custom check is asked in the state the first one left |
| Forwarding.ForwardedExactly | src/service.rs:148-824 | for every engine, layer and store: a request that is neither excluded nor a preflight is forwarded if and only if its usage rules do not ban, the gate is open, the body fits, the route's requirements hold, the scan ends, a finding is allowed, and no stage has an answer to its question; no part of the condition mentions the run |
| Forwarding.PassiveModeForwardsExactly | src/service.rs:148-824 | in passive mode the same without gate and findings: the exact requests passive mode still blocks |
| Forwarding.PassesExactly | src/service.rs:148-824 | the first arms, however many, pass a request exactly when it meets what each of them asks and the stage behind each has no answer |
| Forwarding.ArmExactly | src/service.rs:148-824 | any arm, on the flow a run carries to it, lets the request pass exactly when a condition on the request and the stores on arrival holds |
| Readings.FactsAreRead | src/stages.rs:58-93 | every fact is what the request says: the first header of its name if it prints, the authority before the host header, the scheme or `http`; the redirect target is the request's own address |
| Readings.HeaderPairsAreKept | src/stages.rs:105-110 | the header checks see every header that prints, in order, and no other |
| Readings.FindPairFinds | src/service.rs:1085-1103 | a lookup finds the first pair of the name, letter by letter whatever their case, or there is none |
| Detection.ForwardedWasClean | src/service.rs:1310-1366 | outside passive mode and with detection on, a forwarded request was shown to the engine as sent (body, path, query parameters, headers, content type), and the engine found nothing |
| Detection.ScannedAreKept | src/service.rs:1334-1344 | exactly the printing headers outside `sec-` and the seven listed names are scanned, in order, by position |
| Detection.BadBodyIsStopped | src/service.rs:1351-1353 | an engine that flags exactly one body: no request with that body is forwarded |
| Detection.BadPathIsStopped | src/service.rs:1316-1317 | the same of a path other than the root |
| Detection.BadQueryIsStopped | src/service.rs:1322-1332 | the same of a list of query parameters, however it is written |
| Detection.BadContentTypeIsStopped | src/service.rs:1346-1350 | the same of the first content type |
| Detection.BadHeaderIsStopped | src/service.rs:1334-1344 | the same of a header at any position that is scanned |
| Admission.ForwardedMeetsItsRoute | src/service.rs:244-758 | a forwarded request, as the client sent it, meets every stage-free requirement of its route: addresses, countries, scheme, headers, the first referrer header, validators, window, the first user-agent header, tier |
| Admission.ForwardedThroughTheGate | src/service.rs:308-313 | a forwarded request was let pass by the gate where it applies, and carries exactly its decision |
| Admission.TiersAreAskedAbout | src/service.rs:754-771 | the tiers are asked about the client, its path, the winning tier, the gate's decision and the scan's finding |
| Answers.RefusedBodyIsAnswered | src/service.rs:409-421 | a body over the route's own limit, or over the layer's where the route names none, is answered 413, a broken one 500, with their texts |
| Answers.UnmetIsAnswered | src/service.rs:200-794 | what the client gets from the first arm whose requirement it does not meet: status, text, redirect to its own https address; only a threat takes a custom body |
| Answers.LimitsAnswerTheCall | src/service.rs:635-774 | an answer of bans or tiers shows the stage's status, its custom body or its message, and its delay |
| Answers.RefusingCheckIsAnswered | src/service.rs:538-553 | a refusing check answers the status it names, 200 if none, and panics on one that does not exist |
| Answers.StageRedirects | src/response.rs:40-62 | a redirect of the https stage carries its status and target and no text |
| Answers.PreflightIsAnswered | src/service.rs:1068-1113 | a preflight is answered from the CORS configuration and the first origin, method and header names of the request, and costs no store |
| Traffic.ConsultedOnceOrNever | src/service.rs:763-774 | the tiers are consulted once by a request that passed every earlier arm on a route not bypassing them, and by no other |
| Traffic.BudgetOfTraffic | src/service.rs:763-774 | over any request sequence the consultations are exactly those requests; with none, windows and counts are unchanged |
| Traffic.OversizedConsumesNothing | src/service.rs:413-421 | a body that does not buffer consumes no budget |
| Bans.BannedIsStopped | src/service.rs:635-639 | a running ban in the stage's manager keeps the request out and costs no budget |
| Bans.BannedStaysOut | src/service.rs:635-639 | the same for every later request of any sequence, until expiry |
| Bans.StepKeepsBans | src/service.rs:200-223 | no arm loses a running ban, the engine permitting |
| Bans.UsageBanLands | src/service.rs:206-222 | a ban by a usage rule is still in the processor's manager after the arm's answer |
| Bans.ReturnBanIsLive | src/service.rs:991 | a forwarded visit whose return rules ban leaves the ban running in the processor's manager |
| Endings.CallEndsInAPass | src/service.rs:1038-1057 | every forward, gate denial and block, from whichever arm, ends in a response pass over the client's own request; exit and stores are what it returned |
| Bans.ReturnBanKeepsOut | src/service.rs:972-1057 | end to end: whichever answer a visit got, if the return rules ban in the pass it ended in, the address stays out until expiry when the managers are one |
| Bans.ExcludedForwardEndsInAPass | src/service.rs:158-160 | an excluded forward ends in a response pass like any other |
| Bans.RuleBanKeepsOut | src/service.rs:200-223 | with one shared manager a rule's ban keeps the address out of the wrapped service |
| Bans.UsageBanIsLive | src/service.rs:200-223 | a visit whose usage rules ban leaves the ban running, however it ends |
| Bans.UsageBanKeepsOut | src/service.rs:200-223 | end to end: an address banned by a usage rule reaches the wrapped service on no later visit until expiry, when the managers are one |
| Bans.TableMovesByOwnDecisions | src/service.rs:635-774 | with two managers, one visit moves the stage's table by at most one ban decision and one tier decision about the visitor, and by nothing else |
| Bans.RuleBansNeverReachTheStage | src/service.rs:991 | with two managers, for every engine: over any request sequence the stage's table is what its own decisions, in order, made of it |
| Bans.SilentStageKeepsItsTable | src/service.rs:991 | a stage that writes no ban keeps its table whatever the rules ban |
| Bans.ConfiguredManagersDiffer | src/lib.rs:787-798 | every service built from the configuration has two managers when it has a processor |
| Noninterference.StepAlike | src/service.rs:153 | an arm that reads nothing in which two services differ decides alike, whatever gate, bodies, modifier, later stages and tier rule they have |
| Noninterference.GateIsInvisibleBeforeTheTiers | src/service.rs:308-762 | layers that differ in a passing gate alone answer alike through the user-agent arm, in the same world |
| Noninterference.PanicsShowNowhere | src/service.rs:994-1013 | for any modifier, over a whole call: exit and stores are those of the modifier that leaves the view alone where this one panics; the error hook hears at most once for each pass |
| Noninterference.PanickingModifierIsNone | src/service.rs:994-1013 | a modifier that only panics is as good as none; the error hook hears exactly once for each pass |
| ErrorBodies.CustomBodiesExactly | src/service.rs:777-786 | other custom bodies: a gate denial and a threat block keep exit kind, status, headers and stores and show the other body; every other call is the same to the last store |
| ErrorBodies.CustomBodiesMatterExactly | src/service.rs:1194-1226 | a call is the same under all custom bodies if and only if neither the gate denies it nor a threat blocks it |
| ErrorBodies.BlockHookHearsExactly | src/service.rs:777-801 | the block hook hears once of a gate denial or a blocked threat, where there is a hook and the log knobs, and of nothing else |
| Bypass.MoreBypassesNeverBlock | src/service.rs:227-231 | a larger bypass set never turns a forward into an answer, as long as it costs no exemption, which a caller can tell beforehand |
| Bypass.BypassExactly | src/service.rs:227-313 | that proviso is exact: it holds if and only if the larger set keeps the forward under every tier rule that keeps the promises |
| Bypass.LostExemptionCanBlock | src/service.rs:308-313 | without the proviso, for every request and service, a tier rule that keeps all promises and turns the forward into an answer |
| Bypass.LargerSetStopsOnlyAtTheTiers | src/service.rs:611-774 | with nothing asked of the tiers: under a larger set the request gets to them, and is forwarded if and only if they let it pass |
| Wildcard.WildcardIsEveryName | src/service.rs:227-231 | a route that bypasses `all` forwards exactly what it would forward if it named every check |
| Configured.ListsDecide | src/lib.rs:618-626 | a service built from the configuration denies the visitors its lists keep out, with the configured body, and marks the others by the lists they are on |
| Configured.BuildAndDecide | src/lib.rs:597-802 | that theorem applies to every layer the configuration builds, and it builds one unless a constructor refuses |
| Configured.NewLayerForwardsExactly | src/lib.rs:510-556 | a new layer only buffers and detects: exactly which requests it forwards |
| Departures.SkippedGateCostsTheExemption | src/service.rs:308-313 | a concrete request that adding `ip` turns from forwarded to 429, on a service that keeps every promise of the bypass theorem |
| Departures.RunsPartAtTheTiers | src/service.rs:762 | two concrete layers that differ in a passing gate and part at the tiers |
| Departures.CarrierArmsIgnorePassiveMode | src/service.rs:244-731 | the route's checks answer alike in both modes |
| Departures.DeniedRouteAlwaysBlocks | src/service.rs:244-268 | an address the route denies is blocked in every mode, with the fixed message and no custom body |
| Departures.PassiveModeBlocksAVisitor | src/service.rs:258 | a concrete passive service, none of its stages with an answer, that answers 403 |
| Departures.GeoPassesExactly | src/service.rs:644-655 | for any geo stage: a request at the check passes if and only if it is bypassed, the route takes the countries over, or the stage lets the client pass under the decision carried on arrival |
| Departures.CloudPassesExactly | src/service.rs:662-687 | for any cloud stage the same, with the route's provider list, which must parse |
| Departures.AgentPassesExactly | src/service.rs:732-750 | for any user-agent stage the same; nothing bypasses it |
| Departures.GeoSkipsExactly | src/service.rs:644-647 | every geo stage that skips exempted addresses, whatever it does with others, lets the request pass if and only if it carried an exemption on arrival, the check is bypassed or the route takes the countries over |
| Departures.CloudSkipsExactly | src/service.rs:662-687 | the same of the cloud check, on a route whose providers parse |
| Departures.AgentSkipsExactly | src/service.rs:732-739 | the same of the user-agent check, which nothing bypasses |
| Departures.WhitelistedYetBlocked | src/service.rs:644-655 | a concrete visitor whom the gate whitelists and such a geo stage keeps out |
| Stages.FoldInReverse | src/stages.rs:587-595 | folding the list in reverse makes the first layer the outermost |
| Stages.FirstAnswerWins | src/stages.rs:409-429 | a stack of any length answers with the first layer that decides, and leaves the stores its prefix left |
| Stages.NobodyAnswers | src/stages.rs:409-429 | when none decides the wrapped service gets the request |
| Stages.DecideFrame | src/stages.rs:197-345 | a layer writes its own state, and shared stores only for bans and tiers |
| Stages.RateLimitStageOf | src/lib.rs:1410-1415 | the wrapped stage, or one built when a store is installed, with new empty stores where none is, or none |
| Agreement.ProvidedLayers | src/stages.rs:597-644 | the list is exactly the installed stages in pipeline order |
| Agreement.StepAgrees | src/service.rs:315-820 | each arm answers what its standalone layer answers, with the same stores |
| Agreement.FusedAgreesWithStack | src/stages.rs:409-429 | the folded layers and the fused call leave the same stores, and show the same status, body, retry delay and redirect if and only if no layer decides or both can render the deciding verdict |
| Agreement.WrapBothWays | src/stages.rs:597-644 | one layer, wrapped and folded, whichever of limiter and ban store it has: the two stages share what is installed, start alike, and the two services agree |
| Agreement.RenderingsAgree | src/stages.rs:115-190 | which verdicts both services render alike: an existing status, and on geo, cloud and user-agent answers no delay and no other body |
| Agreement.ThrottledOriginDiffers | src/stages.rs:115-130 | a concrete throttled answer on which the two differ |
| Agreement.MissingStatusDiffers | src/response.rs:90-93 | a concrete validator status on which one service panics and the other answers 403 |

## Left out

- FusedAgreesWithStack: assumes what only the fused service has is off (carrier route, gate, processor, excluded path, tier extension, a body with content, a finding), and that a stage with neither limiter nor ban store is silent.
- MoreBypassesNeverBlock: assumes the four named promises of engine and user-agent stage; the proviso is exact for them by `BypassExactly`.
- ListsDecide: assumes a gate constructor that does what it documents; the gate is the engine's.
- BannedStaysOut: assumes the engine keeps and answers running bans; the engine's ban store is not part of this model.
- Status.Payload: the text of the geo manager's health snapshot is given and only has to be one JSON value; a refresh stamp is a natural number.
- The engine (detection, sliding windows, address and country matching, CORS, referrer, header and time-window cores) is an arbitrary record of functions.
- Polling, wakers, pinning, `GuardBody::poll_frame` and the dispatch of `GuardStageService`; a body is a finite sequence of frames.
- Log lines, redaction, hook and event payloads; the hook, the event, the passes and the consultations are counted.
- Request logging and the country log line, which compose text and never answer.
- One reading of the clock serves a whole call; time zones belong to the engine.
- Octets that are not UTF-8: the decoder returns octets, and lossy conversion is the identity on valid UTF-8.
- A response header holds one value for each name, and the decimal text of `Retry-After` and the text of the redirect URL stay structured.
- Whether a name and a value form a header is the engine's `headerEntry`.
- A stage receives the extracted facts as a whole, a superset of the arguments it is called with.
- A panic of a route resolver, of a usage rule or of a stage; only the scan and the modifier are guarded in the code.
- Cloud refresh scheduling, `agent_stats`, `default_config` and the example applications.
