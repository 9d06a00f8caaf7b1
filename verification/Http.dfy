/**
 Requests and responses, the request extensions the guard reads and writes, and
 the facts it extracts once per request (`RequestFacts::extract`).
 */
module Http {
  import opened BodyBuffer
  import opened Octets
  import opened Wrappers

  type U16 = n: nat | n < 0x1_0000

  /** What `http::StatusCode::from_u16` accepts. */
  predicate ValidStatus(status: nat) { 100 <= status <= 999 }

  type StatusCode = n: nat | ValidStatus(n) witness 200

  /** A client address in its printed form, which is never empty. */
  type Ip = text: string | text != "" witness "::"

  /** An object handed in by the host application that the guard only passes on. */
  type Handle = nat

  /** A header value either prints as visible text or is dropped by the readers. */
  datatype HeaderValue = Visible(text: string) | Opaque

  datatype Header = Header(name: string, value: HeaderValue)

  datatype Uri = Uri(scheme: Option<string>, authority: Option<string>, path: string, query: Option<Octets>)

  datatype GateDecision = GateDecision(isWhitelisted: bool, isExempt: bool)

  datatype RouteRateLimits = RouteRateLimits(limit: Option<nat>, window: Option<nat>, geo: Option<map<string, nat>>)

  /** `RouteConfig::rate_limits`: an invalid tier is an error, no tier is none. */
  datatype TierView = Tier(limits: Option<RouteRateLimits>) | InvalidTier

  datatype HeaderAuthRules = HeaderAuthRules(
    requiredHeaders: seq<(string, string)>,
    authRequired: Option<string>,
    apiKeyRequired: bool,
    apiKeyHeader: Option<string>,
    authorizationRequired: Option<string>,
    authVerifier: Option<Handle>,
    apiKeyVerifier: Option<Handle>)

  /** The per-route carrier: the knobs one route adds to the global configuration. */
  datatype RouteConfig = RouteConfig(
    bypassed: set<string>,
    behaviorRules: seq<Handle>,
    ipWhitelist: Option<seq<string>>,
    ipBlacklist: Option<seq<string>>,
    whitelistCountries: Option<seq<string>>,
    blockedCountries: Option<seq<string>>,
    requireHttps: bool,
    maxRequestSize: Option<nat>,
    headerRules: HeaderAuthRules,
    requireReferrer: Option<seq<string>>,
    customValidators: seq<Handle>,
    timeRestrictions: Option<map<string, string>>,
    enableSuspiciousDetection: bool,
    blockCloudProviders: seq<string>,
    blockedUserAgents: seq<string>,
    rateLimits: TierView)

  /** The typed request extensions the guard knows. */
  datatype Extensions = Extensions(
    clientIp: Option<Ip>,
    gate: Option<GateDecision>,
    route: Option<RouteConfig>,
    tiers: Option<RouteRateLimits>,
    exclusions: Option<Handle>)

  datatype Parts = Parts(verb: string, uri: Uri, headers: seq<Header>, extensions: Extensions)

  /** What the wrapped service is called with. */
  datatype Request = Request(parts: Parts, body: Octets)

  datatype Url = Url(host: string, path: string, query: Option<Octets>)

  datatype FieldValue = Text(text: string) | Seconds(count: nat) | Target(url: Url)

  datatype ResponseBody = Passthrough(content: string) | Generated(text: string)

  datatype Response = Response(status: U16, headers: map<string, FieldValue>, body: ResponseBody)

  // ---- header access -------------------------------------------------------------

  function LowerChar(c: char): char
  {
    if 'A' <= c <= 'Z' then (c as int + 32) as char else c
  }

  function Lower(s: string): string
  {
    if s == "" then "" else [LowerChar(s[0])] + Lower(s[1..])
  }

  predicate EqIgnoreCase(a: string, b: string) { Lower(a) == Lower(b) }

  /** `HeaderMap::get` followed by `to_str`: an opaque first value hides later ones. */
  function HeaderText(headers: seq<Header>, name: string): Option<string>
  {
    if headers == [] then None
    else if headers[0].name == name then
      if headers[0].value.Visible? then Some(headers[0].value.text) else None
    else HeaderText(headers[1..], name)
  }

  /** The visible header pairs; opaque values drop out. */
  function HeaderPairs(headers: seq<Header>): seq<(string, string)>
  {
    if headers == [] then []
    else if headers[0].value.Visible? then [(headers[0].name, headers[0].value.text)] + HeaderPairs(headers[1..])
    else HeaderPairs(headers[1..])
  }

  /** The first pair with this name, whatever its case. */
  function FindPair(pairs: seq<(string, string)>, name: string): Option<string>
  {
    if pairs == [] then None
    else if EqIgnoreCase(pairs[0].0, name) then Some(pairs[0].1)
    else FindPair(pairs[1..], name)
  }

  // ---- request facts -------------------------------------------------------------

  datatype Facts = Facts(
    ip: Option<Ip>,
    gate: Option<GateDecision>,
    ipString: string,
    path: string,
    verb: string,
    scheme: string,
    referer: Option<string>,
    userAgent: Option<string>,
    host: Option<string>,
    forwardedProto: Option<string>,
    origin: Option<string>,
    query: Option<Octets>)

  function IpString(ip: Option<Ip>): string
  {
    if ip.Some? then ip.value else ""
  }

  function Extract(parts: Parts): Facts
  {
    Facts(
      parts.extensions.clientIp,
      parts.extensions.gate,
      IpString(parts.extensions.clientIp),
      parts.uri.path,
      parts.verb,
      if parts.uri.scheme.Some? then parts.uri.scheme.value else "http",
      HeaderText(parts.headers, "referer"),
      HeaderText(parts.headers, "user-agent"),
      if parts.uri.authority.Some? then parts.uri.authority else HeaderText(parts.headers, "host"),
      HeaderText(parts.headers, "x-forwarded-proto"),
      HeaderText(parts.headers, "origin"),
      parts.uri.query)
  }

  /** The https URL of the request: the redirect target. */
  function HttpsUrl(facts: Facts): Url
  {
    Url(if facts.host.Some? then facts.host.value else "", facts.path, facts.query)
  }

  // ---- responses -----------------------------------------------------------------

  const BLOCKED_MESSAGE := "Suspicious activity detected"
  const FORBIDDEN_MESSAGE := "Forbidden"
  const ACTIVITY_BANNED_MESSAGE := "IP has been banned"
  const OVERSIZE_MESSAGE := "Payload too large"
  const FAILURE_MESSAGE := "Security check failed"

  function PlainText(status: U16, message: string): Response
  {
    Response(status, map["content-type" := Text("text/plain; charset=utf-8")], Generated(message))
  }

  function Oversize(): Response { PlainText(413, OVERSIZE_MESSAGE) }

  function Failure(): Response { PlainText(500, FAILURE_MESSAGE) }

  function BodyText(response: Response): string
  {
    match response.body
    case Passthrough(content) => content
    case Generated(text) => text
  }

  /** The `Retry-After` value of a response. */
  function RetryAfter(response: Response): Option<FieldValue>
  {
    if "retry-after" in response.headers then Some(response.headers["retry-after"]) else None
  }
}
