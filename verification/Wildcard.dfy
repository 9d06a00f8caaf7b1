/**
 The bypass wildcard: a route that bypasses `all` forwards exactly what it would
 forward if it named every check there is a name for.
 */
module Wildcard {
  import opened Admission
  import opened BodyBuffer
  import opened Bypass
  import opened Engine
  import opened Forwarding
  import opened Frames
  import opened Http
  import opened Layer
  import opened Octets
  import opened Pipeline
  import opened Questions
  import opened Readings
  import opened Runs
  import opened Wrappers

  /** The names a route can bypass one by one. */
  const NAMED := {"ip", "penetration", "ip_ban", "clouds", "rate_limit"}

  /** Every check that has a name is bypassed. */
  predicate BypassesAll(r: RouteConfig)
  {
    && Bypassed(Some(r), "ip") && Bypassed(Some(r), "penetration") && Bypassed(Some(r), "ip_ban")
    && Bypassed(Some(r), "clouds") && Bypassed(Some(r), "rate_limit")
  }

  lemma BothBypass(r: RouteConfig)
    ensures BypassesAll(Eased(r, {"all"})) && BypassesAll(Eased(r, NAMED))
  {
  }

  /** The two requests differ in the bypass set of their carrier alone. */
  ghost predicate TwoCarriers(env: Env, p: Parts, q: Parts, r: RouteConfig, s: RouteConfig)
  {
    && s == r.(bypassed := s.bypassed) && BypassesAll(r) && BypassesAll(s)
    && p.extensions.route == Some(r) && q == p.(extensions := p.extensions.(route := Some(s)))
  }

  lemma SameFacts(env: Env, p: Parts, q: Parts, r: RouteConfig, s: RouteConfig)
    requires TwoCarriers(env, p, q, r, s)
    ensures FactsSent(q) == FactsSent(p) && RouteOf(env.layer, p) == Some(r) && RouteOf(env.layer, q) == Some(s)
    ensures q.uri == p.uri && q.headers == p.headers && q.verb == p.verb
  {
    hide HeaderOf, BypassesAll;
  }

  lemma SameMeets(arm: Arm, env: Env, p: Parts, q: Parts, w: World, r: RouteConfig, s: RouteConfig)
    requires TwoCarriers(env, p, q, r, s)
    ensures Meets(arm, env, p, w) <==> Meets(arm, env, q, w)
  {
    hide Bypassed, FactsSent, RouteOf, HeaderPairs, FindPair, ScanSurfaces, Content;
    SameFacts(env, p, q, r, s);
    SameUsage(env, p, q, w, r, s);
  }

  lemma SameUsage(env: Env, p: Parts, q: Parts, w: World, r: RouteConfig, s: RouteConfig)
    requires TwoCarriers(env, p, q, r, s)
    ensures UsageOf(env, p, w) == UsageOf(env, q, w)
  {
    hide HeaderText, BypassesAll;
  }

  lemma SameQuiet(arm: Arm, env: Env, p: Parts, q: Parts, w: World, r: RouteConfig, s: RouteConfig)
    requires TwoCarriers(env, p, q, r, s)
    ensures Quiet(arm, env, p, w) <==> Quiet(arm, env, q, w)
  {
    hide Bypassed, FactsSent, RouteOf, HeaderPairs, ScanSurfaces, Content, TableAsked, TableDecided, HttpsAsked, TiersOf,
      GateLeft, SelectorsOf, CountriesTakenOver, ScanOf;
    SameFacts(env, p, q, r, s);
    SameHttps(env, p, q, r, s);
  }

  lemma SameHttps(env: Env, p: Parts, q: Parts, r: RouteConfig, s: RouteConfig)
    requires TwoCarriers(env, p, q, r, s)
    ensures HttpsAsked(p, Some(r)) == HttpsAsked(q, Some(s))
  {
    hide BypassesAll, FactsSent;
    SameFacts(env, p, q, r, s);
  }

  /**
   The wildcard stands for every named check: over any service, any request and any
   stores, the route with `all` in its bypass set forwards the request if and only if
   the route with all the names in it does.
   */
  lemma WildcardIsEveryName(env: Env, parts: Parts, w: World, r: RouteConfig)
    requires Fresh(env, Carrying(parts, r), w)
    ensures var p, q := Carrying(parts, Eased(r, {"all"})), Carrying(parts, Eased(r, NAMED));
      && Call(env, p, w).Done? && Call(env, q, w).Done?
      && (Reaches(Call(env, p, w).exit) <==> Reaches(Call(env, q, w).exit))
  {
    hide Call, Meets, Quiet, Acceptable, BypassesAll;
    var p, q := Carrying(parts, Eased(r, {"all"})), Carrying(parts, Eased(r, NAMED));
    BothBypass(r);
    FreshWhateverTheRoute(env, parts, w, r, Eased(r, {"all"}));
    FreshWhateverTheRoute(env, parts, w, r, Eased(r, NAMED));
    ForwardedExactly(env, p, w);
    ForwardedExactly(env, q, w);
    AcceptableIsMet(env, p, w);
    AcceptableIsMet(env, q, w);
    forall arm: Arm
      ensures Meets(arm, env, p, w) <==> Meets(arm, env, q, w)
      ensures Quiet(arm, env, p, w) <==> Quiet(arm, env, q, w)
    {
      SameMeets(arm, env, p, q, w, Eased(r, {"all"}), Eased(r, NAMED));
      SameQuiet(arm, env, p, q, w, Eased(r, {"all"}), Eased(r, NAMED));
    }
  }

  lemma FreshWhateverTheRoute(env: Env, parts: Parts, w: World, r: RouteConfig, s: RouteConfig)
    requires Fresh(env, Carrying(parts, r), w)
    ensures Fresh(env, Carrying(parts, s), w)
  {
    hide PreflightPairs, FindPair, EqIgnoreCase, InsertHeaders, HeaderText;
  }
}
