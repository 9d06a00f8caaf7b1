/**
 What the readers of a request find in it, said by position: the first header of a
 name, the headers a reader keeps, and each fact the guard extracts.
 */
module Readings {
  import opened Http
  import opened Octets
  import opened Wrappers

  // ---- the first header of a name --------------------------------------------------------------

  /** Position `k` holds the first header of this name. */
  ghost predicate FirstAt(headers: seq<Header>, name: string, k: nat)
  {
    k < |headers| && headers[k].name == name && forall j :: 0 <= j < k ==> headers[j].name != name
  }

  /** What the first header of this name says; nothing, if there is none or its value does not print. */
  ghost function HeaderOf(headers: seq<Header>, name: string): Option<string>
  {
    if exists k: nat :: FirstAt(headers, name, k) then
      var k: nat :| FirstAt(headers, name, k);
      if headers[k].value.Visible? then Some(headers[k].value.text) else None
    else None
  }

  lemma FirstIsUnique(headers: seq<Header>, name: string, j: nat, k: nat)
    requires FirstAt(headers, name, j) && FirstAt(headers, name, k)
    ensures j == k
  {
  }

  /** The reader that walks the headers finds the first one. */
  lemma {:induction false} HeaderTextIsFirst(headers: seq<Header>, name: string)
    ensures HeaderText(headers, name) == HeaderOf(headers, name)
  {
    if headers == [] {
    } else if headers[0].name == name {
      assert FirstAt(headers, name, 0);
    } else {
      HeaderTextIsFirst(headers[1..], name);
      FirstsShift(headers, name);
    }
  }

  lemma FirstsShift(headers: seq<Header>, name: string)
    requires headers != [] && headers[0].name != name
    ensures HeaderOf(headers, name) == HeaderOf(headers[1..], name)
  {
    if k: nat :| FirstAt(headers, name, k) {
      assert FirstAt(headers[1..], name, k - 1) by {
        forall j | 0 <= j < k - 1 ensures headers[1..][j].name != name { assert headers[j + 1].name != name; }
      }
      OnlyFirst(headers, name, k);
      OnlyFirst(headers[1..], name, k - 1);
    } else if k: nat :| FirstAt(headers[1..], name, k) {
      assert FirstAt(headers, name, k + 1) by {
        forall j | 0 <= j < k + 1 ensures headers[j].name != name {
          if j > 0 { assert headers[1..][j - 1].name != name; }
        }
      }
    }
  }

  lemma OnlyFirst(headers: seq<Header>, name: string, k: nat)
    requires FirstAt(headers, name, k)
    ensures HeaderOf(headers, name) == if headers[k].value.Visible? then Some(headers[k].value.text) else None
  {
    forall j: nat | FirstAt(headers, name, j) ensures j == k { FirstIsUnique(headers, name, j, k); }
  }

  // ---- the facts -----------------------------------------------------------------------------------

  /** The facts of a request, read off the request. */
  ghost function FactsSent(parts: Parts): Facts
  {
    var uri, headers, who := parts.uri, parts.headers, parts.extensions.clientIp;
    Facts(
      ip := who,
      gate := parts.extensions.gate,
      ipString := match who { case Some(address) => address case None => "" },
      path := uri.path,
      verb := parts.verb,
      scheme := match uri.scheme { case Some(scheme) => scheme case None => "http" },
      referer := HeaderOf(headers, "referer"),
      userAgent := HeaderOf(headers, "user-agent"),
      host := match uri.authority { case Some(authority) => Some(authority) case None => HeaderOf(headers, "host") },
      forwardedProto := HeaderOf(headers, "x-forwarded-proto"),
      origin := HeaderOf(headers, "origin"),
      query := uri.query)
  }

  /** Every fact is what the request says, and the redirect target is its own address. */
  lemma FactsAreRead(parts: Parts)
    ensures Extract(parts) == FactsSent(parts)
    ensures HttpsUrl(Extract(parts)) ==
            Url(host := match FactsSent(parts).host { case Some(host) => host case None => "" },
                path := parts.uri.path, query := parts.uri.query)
  {
    HeaderTextIsFirst(parts.headers, "referer");
    HeaderTextIsFirst(parts.headers, "user-agent");
    HeaderTextIsFirst(parts.headers, "host");
    HeaderTextIsFirst(parts.headers, "x-forwarded-proto");
    HeaderTextIsFirst(parts.headers, "origin");
  }

  // ---- kept headers ------------------------------------------------------------------------------

  predicate Increasing(at: seq<nat>)
  {
    forall i, j :: 0 <= i < j < |at| ==> at[i] < at[j]
  }

  /** Position by position, the pairs are kept headers that print. */
  ghost predicate PairsAt(headers: seq<Header>, keep: Header -> bool, pairs: seq<(string, string)>, at: seq<nat>)
  {
    |at| == |pairs| &&
    forall i :: 0 <= i < |at| ==>
      at[i] < |headers| && keep(headers[at[i]]) && headers[at[i]] == Header(pairs[i].0, Visible(pairs[i].1))
  }

  ghost predicate AllAt(headers: seq<Header>, keep: Header -> bool, at: seq<nat>)
  {
    forall k: nat :: k < |headers| && keep(headers[k]) ==> k in at
  }

  /** These pairs are the headers the reader keeps, in order: all of them, and no other. */
  ghost predicate Kept(headers: seq<Header>, keep: Header -> bool, pairs: seq<(string, string)>)
  {
    exists at: seq<nat> :: Increasing(at) && PairsAt(headers, keep, pairs, at) && AllAt(headers, keep, at)
  }

  function Behind(at: seq<nat>): (r: seq<nat>)
    ensures |r| == |at| && forall i :: 0 <= i < |at| ==> r[i] == at[i] + 1
  {
    seq(|at|, i requires 0 <= i < |at| => at[i] + 1)
  }

  lemma KeptNothing(keep: Header -> bool)
    ensures Kept([], keep, [])
  {
    var at: seq<nat> := [];
    assert Increasing(at) && PairsAt([], keep, [], at) && AllAt([], keep, at);
  }

  lemma PairsBehind(headers: seq<Header>, keep: Header -> bool, pairs: seq<(string, string)>, at: seq<nat>)
    requires headers != [] && PairsAt(headers[1..], keep, pairs, at)
    ensures PairsAt(headers, keep, pairs, Behind(at))
  {
    hide Behind;
    forall i | 0 <= i < |at|
      ensures Behind(at)[i] < |headers| && keep(headers[Behind(at)[i]])
      ensures headers[Behind(at)[i]] == Header(pairs[i].0, Visible(pairs[i].1))
    {
      assert headers[1..][at[i]] == headers[Behind(at)[i]];
    }
  }

  lemma FoundBehind(headers: seq<Header>, keep: Header -> bool, at: seq<nat>, k: nat)
    requires 0 < k < |headers| && keep(headers[k]) && AllAt(headers[1..], keep, at)
    ensures k in Behind(at)
  {
    hide Behind;
    assert headers[1..][k - 1] == headers[k];
    assert k - 1 in at;
    var i :| 0 <= i < |at| && at[i] == k - 1;
    assert Behind(at)[i] == k;
  }

  lemma KeptSkips(headers: seq<Header>, keep: Header -> bool, pairs: seq<(string, string)>)
    requires headers != [] && !keep(headers[0]) && Kept(headers[1..], keep, pairs)
    ensures Kept(headers, keep, pairs)
  {
    hide PairsAt, AllAt, Behind;
    var at :| Increasing(at) && PairsAt(headers[1..], keep, pairs, at) && AllAt(headers[1..], keep, at);
    PairsBehind(headers, keep, pairs, at);
    AllBehind(headers, keep, at, Behind(at));
    assert Increasing(Behind(at));
  }

  lemma AllBehind(headers: seq<Header>, keep: Header -> bool, rest: seq<nat>, at: seq<nat>)
    requires headers != [] && AllAt(headers[1..], keep, rest)
    requires forall k :: k in Behind(rest) ==> k in at
    requires keep(headers[0]) ==> 0 in at
    ensures AllAt(headers, keep, at)
  {
    hide Behind;
    forall k: nat | k < |headers| && keep(headers[k]) ensures k in at {
      if k > 0 { FoundBehind(headers, keep, rest, k); }
    }
  }

  lemma PairsInFront(headers: seq<Header>, keep: Header -> bool, text: string, pairs: seq<(string, string)>, at: seq<nat>)
    requires headers != [] && keep(headers[0]) && headers[0].value == Visible(text)
    requires PairsAt(headers, keep, pairs, at)
    ensures PairsAt(headers, keep, [(headers[0].name, text)] + pairs, [0] + at)
  {
    var all, ps := [0] + at, [(headers[0].name, text)] + pairs;
    forall i | 0 <= i < |all|
      ensures all[i] < |headers| && keep(headers[all[i]])
      ensures headers[all[i]] == Header(ps[i].0, Visible(ps[i].1))
    {
      if i > 0 { assert all[i] == at[i - 1] && ps[i] == pairs[i - 1]; }
    }
  }

  lemma KeptTakes(headers: seq<Header>, keep: Header -> bool, text: string, pairs: seq<(string, string)>)
    requires headers != [] && keep(headers[0]) && headers[0].value == Visible(text) && Kept(headers[1..], keep, pairs)
    ensures Kept(headers, keep, [(headers[0].name, text)] + pairs)
  {
    hide PairsAt, AllAt, Behind;
    var rest :| Increasing(rest) && PairsAt(headers[1..], keep, pairs, rest) && AllAt(headers[1..], keep, rest);
    var at := [0] + Behind(rest);
    PairsBehind(headers, keep, pairs, rest);
    PairsInFront(headers, keep, text, pairs, Behind(rest));
    assert at[0] == 0;
    AllBehind(headers, keep, rest, at);
    assert Increasing(at);
  }

  /** The pairs the header checks see: every header that prints, in order. */
  lemma {:induction false} HeaderPairsAreKept(headers: seq<Header>)
    ensures Kept(headers, (h: Header) => h.value.Visible?, HeaderPairs(headers))
  {
    var keep := (h: Header) => h.value.Visible?;
    if headers == [] {
      KeptNothing(keep);
    } else {
      HeaderPairsAreKept(headers[1..]);
      if headers[0].value.Visible? {
        KeptTakes(headers, keep, headers[0].value.text, HeaderPairs(headers[1..]));
      } else {
        KeptSkips(headers, keep, HeaderPairs(headers[1..]));
      }
    }
  }

  // ---- names, whatever their case ------------------------------------------------------------------

  /** The two forms of an ASCII letter, or the same character. */
  predicate SameLetter(a: char, b: char)
  {
    || a == b
    || ('A' <= a <= 'Z' && b as int == a as int + 32)
    || ('A' <= b <= 'Z' && a as int == b as int + 32)
  }

  predicate SameName(a: string, b: string)
  {
    |a| == |b| && forall k :: 0 <= k < |a| ==> SameLetter(a[k], b[k])
  }

  /** Comparing lower-case forms is comparing letter by letter. */
  lemma {:induction false} CaseIsIgnored(a: string, b: string)
    ensures EqIgnoreCase(a, b) <==> SameName(a, b)
  {
    if a != "" && b != "" {
      CaseIsIgnored(a[1..], b[1..]);
      LowerFirst(a);
      LowerFirst(b);
      assert SameLetter(a[0], b[0]) <==> LowerChar(a[0]) == LowerChar(b[0]);
      assert SameName(a, b) <==> SameLetter(a[0], b[0]) && SameName(a[1..], b[1..]) by {
        if SameLetter(a[0], b[0]) && SameName(a[1..], b[1..]) {
          forall k | 0 <= k < |a| ensures SameLetter(a[k], b[k]) {
            if k > 0 { assert SameLetter(a[1..][k - 1], b[1..][k - 1]); }
          }
        }
        if SameName(a, b) {
          forall k | 0 <= k < |a| - 1 ensures SameLetter(a[1..][k], b[1..][k]) { assert SameLetter(a[k + 1], b[k + 1]); }
        }
      }
    } else {
      LowerLength(a);
      LowerLength(b);
    }
  }

  lemma LowerFirst(s: string)
    requires s != ""
    ensures Lower(s) != "" && Lower(s)[0] == LowerChar(s[0]) && Lower(s)[1..] == Lower(s[1..])
  {
  }

  lemma {:induction false} LowerLength(s: string)
    ensures |Lower(s)| == |s|
  {
    if s != "" { LowerLength(s[1..]); }
  }

  /** The first pair of this name, whatever its case; or there is none. */
  ghost predicate Finds(pairs: seq<(string, string)>, name: string, r: Option<string>)
  {
    match r
    case None => forall k :: 0 <= k < |pairs| ==> !SameName(pairs[k].0, name)
    case Some(text) =>
      exists k :: 0 <= k < |pairs| && SameName(pairs[k].0, name) && pairs[k].1 == text
                  && forall j :: 0 <= j < k ==> !SameName(pairs[j].0, name)
  }

  lemma {:induction false} FindPairFinds(pairs: seq<(string, string)>, name: string)
    ensures Finds(pairs, name, FindPair(pairs, name))
  {
    hide SameName, EqIgnoreCase;
    if pairs != [] {
      CaseIsIgnored(pairs[0].0, name);
      if !SameName(pairs[0].0, name) {
        FindPairFinds(pairs[1..], name);
        var r := FindPair(pairs[1..], name);
        if r.Some? {
          var k :| 0 <= k < |pairs| - 1 && SameName(pairs[1..][k].0, name) && pairs[1..][k].1 == r.value
                   && forall j :: 0 <= j < k ==> !SameName(pairs[1..][j].0, name);
          forall j | 0 <= j < k + 1 ensures !SameName(pairs[j].0, name) {
            if j > 0 { assert !SameName(pairs[1..][j - 1].0, name); }
          }
          assert pairs[k + 1].1 == r.value;
        } else {
          forall k | 0 <= k < |pairs| ensures !SameName(pairs[k].0, name) {
            if k > 0 { assert !SameName(pairs[1..][k - 1].0, name); }
          }
        }
      } else {
        assert pairs[0].1 == FindPair(pairs, name).value;
      }
    }
  }
}
