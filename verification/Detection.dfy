/**
 What the detection engine is shown, end to end. A forwarded request was scanned,
 and the surfaces of the scan are the client's own body, path, query parameters,
 headers and content type, each said without the functions that compute them.
 */
module Detection {
  import opened Admission
  import opened BodyBuffer
  import opened Engine
  import opened Http
  import opened Layer
  import opened Octets
  import opened Pipeline
  import opened Query
  import opened QueryReading
  import opened Readings
  import opened Runs
  import opened Wrappers

  /** The headers that are scanned: those that print, but for framework noise. */
  predicate Screened(h: Header)
  {
    && h.value.Visible?
    && !("sec-" <= h.name)
    && h.name !in {"host", "user-agent", "accept", "accept-encoding", "connection", "origin", "referer"}
  }

  /** These parameters, behind these ampersands, are the query of the request. */
  predicate QueryIs(parts: Parts, lead: nat, sent: seq<Sent>)
  {
    Separate(sent) && Written(lead, sent) == match parts.uri.query { case Some(query) => query case None => [] }
  }

  /** The surfaces show the request with this body. */
  ghost predicate Shown(parts: Parts, content: Octets, s: Surfaces)
  {
    && s.rawBody == content
    && s.urlPath == (if parts.uri.path == "/" then None else Some(parts.uri.path))
    && (forall lead: nat, sent: seq<Sent> :: QueryIs(parts, lead, sent) ==> s.queryParams == Meant(sent))
    && Kept(parts.headers, Screened, s.headers)
    && s.contentType == (match HeaderOf(parts.headers, "content-type") { case Some(text) => text case None => "" })
    && s.exclusions == parts.extensions.exclusions
  }

  lemma ExcludedIsUnscreened(h: Header)
    ensures Screened(h) <==> !IsExcludedHeader(h.name) && h.value.Visible?
  {
    if |h.name| >= 4 && h.name[..4] == "sec-" { assert "sec-" <= h.name; }
    assert EXCLUDED_HEADERS ==
           ["host", "user-agent", "accept", "accept-encoding", "connection", "origin", "referer"];
  }

  lemma {:induction false} ScannedAreKept(headers: seq<Header>)
    ensures Kept(headers, Screened, ScannedHeaders(headers))
  {
    hide Screened, IsExcludedHeader, Kept;
    if headers == [] {
      KeptNothing(Screened);
    } else {
      ExcludedIsUnscreened(headers[0]);
      ScannedAreKept(headers[1..]);
      if Screened(headers[0]) {
        KeptTakes(headers, Screened, headers[0].value.text, ScannedHeaders(headers[1..]));
      } else {
        KeptSkips(headers, Screened, ScannedHeaders(headers[1..]));
      }
    }
  }

  lemma QueryIsShown(parts: Parts, lead: nat, sent: seq<Sent>)
    requires QueryIs(parts, lead, sent)
    ensures ScanSurfaces(parts, None).queryParams == Meant(sent)
  {
    hide QueryParams, Meant, Separate, Written, ScannedHeaders, HeaderText;
    QueryReads(lead, sent);
  }

  /** The scan of a request with a body shows that request and that body. */
  lemma SurfacesShow(parts: Parts, content: Octets)
    ensures Shown(parts, content, ScanSurfaces(parts, Frozen(content)))
  {
    hide QueryParams, Meant, Separate, Written, ScannedHeaders, HeaderText, Kept, Screened, HeaderOf;
    var s := ScanSurfaces(parts, Frozen(content));
    forall lead: nat, sent: seq<Sent> | QueryIs(parts, lead, sent) ensures s.queryParams == Meant(sent) {
      QueryIsShown(parts, lead, sent);
    }
    ScannedAreKept(parts.headers);
    HeaderTextIsFirst(parts.headers, "content-type");
  }

  /** Detection is on for the request: no bypass names it, and the engine's switches agree. */
  predicate DetectionOn(env: Env, parts: Parts)
  {
    match RouteOf(env.layer, parts)
    case None => env.engine.detectionEnabled(env.layer.detection, None)
    case Some(route) =>
      && "all" !in route.bypassed && "penetration" !in route.bypassed
      && env.engine.detectionEnabled(env.layer.detection, Some(route.enableSuspiciousDetection))
  }

  /** A finding blocks. */
  predicate Armed(layer: GuardLayer)
  {
    layer.stage.Some? ==> !layer.stage.value.knobs.passiveMode
  }

  /**
   A forwarded request was shown to the engine as the client sent it, and the engine
   found nothing: outside passive mode, wherever detection is on and the path is not
   excluded.
   */
  lemma ForwardedWasClean(env: Env, parts: Parts, w: World) returns (s: Surfaces)
    requires !Excluded(env.layer, parts) && DetectionOn(env, parts) && Armed(env.layer)
    requires Call(env, parts, w).Done? && Reaches(Call(env, parts, w).exit)
    ensures Shown(parts, Content(env.frames), s)
    ensures env.engine.scan(s, env.layer.exclusions).NoThreat?
  {
    hide Call, ScanSurfaces, Shown, Frozen, Content;
    s := ScanSurfaces(parts, Frozen(Content(env.frames)));
    FailSecure(env, parts, w);
    SurfacesShow(parts, Content(env.frames));
  }

  // ---- engines that look for one value -------------------------------------------------------------

  /** The engine finds a threat exactly in these surfaces. */
  ghost predicate FindsExactly(e: Engine, bad: Surfaces -> bool)
  {
    forall s: Surfaces, x: Option<Handle> :: e.scan(s, x).Threat? <==> bad(s)
  }

  /** No bad body, path, parameter list, content type or header reaches the wrapped service. */
  lemma BadBodyIsStopped(env: Env, parts: Parts, w: World, value: Octets)
    requires !Excluded(env.layer, parts) && DetectionOn(env, parts) && Armed(env.layer)
    requires FindsExactly(env.engine, (s: Surfaces) => s.rawBody == value)
    ensures Content(env.frames) == value ==> Call(env, parts, w).Done? && !Reaches(Call(env, parts, w).exit)
  {
    hide Call, DetectionOn, Content;
    CallAnswers(env, parts, w);
    if Reaches(Call(env, parts, w).exit) { var s := ForwardedWasClean(env, parts, w); }
  }

  lemma BadPathIsStopped(env: Env, parts: Parts, w: World, value: string)
    requires !Excluded(env.layer, parts) && DetectionOn(env, parts) && Armed(env.layer)
    requires FindsExactly(env.engine, (s: Surfaces) => s.urlPath == Some(value))
    ensures parts.uri.path == value && value != "/" ==>
              Call(env, parts, w).Done? && !Reaches(Call(env, parts, w).exit)
  {
    hide Call, DetectionOn, Content;
    CallAnswers(env, parts, w);
    if Reaches(Call(env, parts, w).exit) { var s := ForwardedWasClean(env, parts, w); }
  }

  lemma BadQueryIsStopped(env: Env, parts: Parts, w: World, lead: nat, sent: seq<Sent>)
    requires !Excluded(env.layer, parts) && DetectionOn(env, parts) && Armed(env.layer)
    requires FindsExactly(env.engine, (s: Surfaces) => s.queryParams == Meant(sent))
    ensures QueryIs(parts, lead, sent) ==> Call(env, parts, w).Done? && !Reaches(Call(env, parts, w).exit)
  {
    hide Call, DetectionOn, Content, QueryIs, Meant;
    CallAnswers(env, parts, w);
    if Reaches(Call(env, parts, w).exit) { var s := ForwardedWasClean(env, parts, w); }
  }

  lemma BadContentTypeIsStopped(env: Env, parts: Parts, w: World, value: string)
    requires !Excluded(env.layer, parts) && DetectionOn(env, parts) && Armed(env.layer)
    requires FindsExactly(env.engine, (s: Surfaces) => s.contentType == value)
    ensures HeaderOf(parts.headers, "content-type") == Some(value) ==>
              Call(env, parts, w).Done? && !Reaches(Call(env, parts, w).exit)
  {
    hide Call, DetectionOn, Content, HeaderOf;
    CallAnswers(env, parts, w);
    if Reaches(Call(env, parts, w).exit) { var s := ForwardedWasClean(env, parts, w); }
  }

  /** A bad header anywhere among those that are scanned. */
  lemma BadHeaderIsStopped(env: Env, parts: Parts, w: World, k: nat)
    requires !Excluded(env.layer, parts) && DetectionOn(env, parts) && Armed(env.layer)
    requires k < |parts.headers| && Screened(parts.headers[k])
    requires var h := parts.headers[k];
      FindsExactly(env.engine, (s: Surfaces) => (h.name, h.value.text) in s.headers)
    ensures Call(env, parts, w).Done? && !Reaches(Call(env, parts, w).exit)
  {
    hide Call, DetectionOn, Content, Kept, Screened, HeaderOf;
    CallAnswers(env, parts, w);
    if Reaches(Call(env, parts, w).exit) {
      var s := ForwardedWasClean(env, parts, w);
      KeptIsThere(parts.headers, Screened, s.headers, k);
    }
  }

  lemma KeptIsThere(headers: seq<Header>, keep: Header -> bool, pairs: seq<(string, string)>, k: nat)
    requires Kept(headers, keep, pairs) && k < |headers| && keep(headers[k])
    ensures headers[k].value.Visible? && (headers[k].name, headers[k].value.text) in pairs
  {
    var at :| Increasing(at) && PairsAt(headers, keep, pairs, at) && AllAt(headers, keep, at);
    var i :| 0 <= i < |at| && at[i] == k;
    assert pairs[i] in pairs;
  }
}
