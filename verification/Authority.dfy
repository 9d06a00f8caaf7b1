/**
 The bare host of an authority, `host_of_authority` of `src/service.rs` and
 `src/stages.rs` (the two copies are the same code), against the authority
 grammar of RFC 3986 section 3.2: `[ userinfo "@" ] host [ ":" port ]`.
 */
module Authority {
  import opened Sequences
  import opened Wrappers

  /** `rsplit('@').next()`: what follows the last at-sign, or the whole text. */
  function AfterLastAt(s: string): (r: string)
    ensures '@' !in r
  {
    var k := FirstOf(s, '@');
    if k == |s| then s else AfterLastAt(s[k + 1..])
  }

  /** One more at-sign dropped. */
  lemma DropOne(s: string, k: nat)
    requires k == FirstOf(s, '@') && k < |s|
    ensures AfterLastAt(s) == AfterLastAt(s[k + 1..])
  {
    hide FirstOf;
  }

  lemma Cut(s: string, k: nat)
    requires k < |s|
    ensures s == s[..k + 1] + s[k + 1..] && s[..k + 1][k] == s[k]
  {
  }

  lemma Joined(a: string, b: string, c: string)
    ensures a + (b + c) == (a + b) + c
  {
  }

  /** It is the end of the text, right behind an at-sign if anything is dropped. */
  lemma {:induction false} AfterLastAtIsTheEnd(s: string) returns (dropped: string)
    ensures s == dropped + AfterLastAt(s)
    ensures dropped != "" ==> dropped[|dropped| - 1] == '@'
  {
    hide AfterLastAt, FirstOf;
    var k := FirstOf(s, '@');
    if k == |s| {
      NothingDropped(s);
      dropped := "";
      assert "" + s == s;
    } else {
      DropOne(s, k);
      Cut(s, k);
      var front, tail := s[..k + 1], s[k + 1..];
      var rest := AfterLastAtIsTheEnd(tail);
      Joined(front, rest, AfterLastAt(tail));
      dropped := front + rest;
    }
  }

  lemma NothingDropped(s: string)
    requires FirstOf(s, '@') == |s|
    ensures AfterLastAt(s) == s
  {
  }

  predicate AllDigits(s: string)
  {
    forall k :: 0 <= k < |s| ==> IsDigit(s[k])
  }

  function HostOfAuthority(value: string): string
  {
    HostOfHostPort(AfterLastAt(value))
  }

  function HostOfHostPort(hostPort: string): string
  {
    if hostPort != [] && hostPort[0] == '[' then
      var rest := hostPort[1..];
      rest[..FirstOf(rest, ']')]
    else
      var k := FirstOf(hostPort, ':');
      if k < |hostPort| && hostPort[k + 1..] != [] && AllDigits(hostPort[k + 1..]) then hostPort[..k]
      else hostPort
  }

  /** A host as RFC 3986 section 3.2.2 writes it: bracketed IPv6, or a name. */
  datatype Host = Bracketed(address: string) | Name(text: string)

  function HostText(host: Host): string
  {
    match host
    case Bracketed(address) => "[" + address + "]"
    case Name(text) => text
  }

  function Bare(host: Host): string
  {
    match host
    case Bracketed(address) => address
    case Name(text) => text
  }

  function PortText(port: Option<string>): string
  {
    if port.Some? then ":" + port.value else ""
  }

  function HostPortText(host: Host, port: Option<string>): string
  {
    HostText(host) + PortText(port)
  }

  function Render(userinfo: Option<string>, host: Host, port: Option<string>): string
  {
    (if userinfo.Some? then userinfo.value + "@" else "") + HostPortText(host, port)
  }

  /** What the grammar promises of a host: no at-sign, no bracket inside, no colon in a name. */
  predicate WellFormed(host: Host)
  {
    match host
    case Bracketed(address) => '@' !in address && ']' !in address
    case Name(text) => '@' !in text && ':' !in text && (text == "" || text[0] != '[')
  }

  /** An at-sign in the text is found, no later than where it stands. */
  lemma FoundBy(s: string, n: nat)
    requires n < |s| && s[n] == '@'
    ensures FirstOf(s, '@') <= n
  {
  }

  lemma CutBehind(a: string, b: string, k: nat)
    requires k <= |a|
    ensures (a + "@" + b)[|a|] == '@'
    ensures (a + "@" + b)[k + 1..] == if k == |a| then b else a[k + 1..] + "@" + b
  {
  }

  lemma {:induction false} AfterLastAtConcatenation(a: string, b: string)
    requires '@' !in b
    ensures AfterLastAt(a + "@" + b) == b
    ensures AfterLastAt(b) == b
    decreases |a|
  {
    hide AfterLastAt, FirstOf;
    var s := a + "@" + b;
    FirstOfAbsent(b, '@');
    NothingDropped(b);
    CutBehind(a, b, |a|);
    FoundBy(s, |a|);
    var k := FirstOf(s, '@');
    DropOne(s, k);
    CutBehind(a, b, k);
    if k < |a| { AfterLastAtConcatenation(a[k + 1..], b); }
  }

  /** Userinfo never reaches the result, whatever it contains. */
  lemma UserinfoIsDropped(userinfo: Option<string>, host: Host, port: Option<string>)
    requires '@' !in HostPortText(host, port)
    ensures AfterLastAt(Render(userinfo, host, port)) == HostPortText(host, port)
  {
    var b := HostPortText(host, port);
    AfterLastAtConcatenation(if userinfo.Some? then userinfo.value else "", b);
    if userinfo.None? {
      assert Render(userinfo, host, port) == b;
    }
  }

  lemma BracketedHost(address: string, tail: string)
    requires ']' !in address
    ensures HostOfHostPort("[" + address + "]" + tail) == address
  {
    var hostPort := "[" + address + "]" + tail;
    assert hostPort[1..] == address + [']'] + tail;
    FirstOfConcatenation(address, ']', tail);
  }

  lemma NameWithPort(text: string, port: string)
    requires ':' !in text && (text == "" || text[0] != '[')
    requires port != "" && AllDigits(port)
    ensures HostOfHostPort(text + ":" + port) == text
  {
    var hostPort := text + [':'] + port;
    assert hostPort == text + ":" + port;
    assert hostPort[0] != '[';
    FirstOfConcatenation(text, ':', port);
    assert hostPort[|text| + 1..] == port && hostPort[..|text|] == text;
  }

  lemma HostPortRoundTrip(host: Host, port: Option<string>)
    requires WellFormed(host)
    requires port.Some? ==> port.value != "" && AllDigits(port.value)
    ensures HostOfHostPort(HostPortText(host, port)) == Bare(host)
  {
    match host {
      case Bracketed(address) =>
        BracketedHost(address, PortText(port));
      case Name(text) =>
        if port.Some? {
          assert HostPortText(host, port) == text + ":" + port.value;
          NameWithPort(text, port.value);
        } else {
          assert HostPortText(host, port) == text;
          FirstOfAbsent(text, ':');
        }
    }
  }

  /** The authority round trip: the bare host comes back, userinfo and decimal port or not. */
  lemma AuthorityRoundTrip(userinfo: Option<string>, host: Host, port: Option<string>)
    requires WellFormed(host)
    requires port.Some? ==> port.value != "" && AllDigits(port.value)
    ensures HostOfAuthority(Render(userinfo, host, port)) == Bare(host)
  {
    assert '@' !in HostText(host) && '@' !in PortText(port);
    UserinfoIsDropped(userinfo, host, port);
    HostPortRoundTrip(host, port);
  }

  /**
   When a port follows, the colon-free condition on a name is exact: the bare
   name comes back if and only if it holds no colon and opens no bracket.
   */
  lemma NameWithPortExactly(text: string, port: string)
    requires '@' !in text
    requires port != "" && AllDigits(port)
    ensures HostOfAuthority(text + ":" + port) == text
            <==> ':' !in text && (text == "" || text[0] != '[')
  {
    var s := text + ":" + port;
    AfterLastAtConcatenation("", s);
    if text != "" && text[0] == '[' {
      BracketNeverReturns(text, port, 0);
    } else if ':' in text {
      var k := FirstOf(s, ':');
      assert k < |text| by {
        var j :| 0 <= j < |text| && text[j] == ':';
        assert s[j] == ':';
      }
      assert s[k + 1..][|text| - k - 1] == ':';
      assert HostOfAuthority(s) == s;
    } else {
      NameWithPort(text, port);
    }
  }

  /** Behind a bracket the result is the text shifted by one, so it differs somewhere. */
  lemma {:induction false} BracketNeverReturns(text: string, port: string, k: nat)
    requires k < |text|
    requires forall j :: 0 <= j <= k ==> text[j] == '['
    ensures HostOfHostPort(text + ":" + port) != text
    decreases |text| - k
  {
    var rest := (text + ":" + port)[1..];
    var taken := rest[..FirstOf(rest, ']')];
    if |taken| == |text| {
      assert taken[k] == rest[k] == (text + ":" + port)[k + 1];
      if k + 1 < |text| && text[k + 1] == '[' {
        BracketNeverReturns(text, port, k + 1);
      }
    }
  }

  // ---- any text --------------------------------------------------------------------------------

  /** A colon and a decimal port at this position, and no colon in front of it. */
  predicate PortAt(s: string, k: nat)
  {
    k < |s| && s[k] == ':' && ':' !in s[..k] && s[k + 1..] != "" && AllDigits(s[k + 1..])
  }

  /** The host of a text without userinfo: what a bracket encloses, or what a port leaves. */
  ghost predicate HostIs(s: string, host: string)
  {
    if s != "" && s[0] == '[' then ']' !in host && (s == "[" + host || "[" + host + "]" <= s)
    else if exists k: nat :: PortAt(s, k) then exists k: nat :: PortAt(s, k) && host == s[..k]
    else host == s
  }

  lemma HostPortReads(s: string)
    ensures HostIs(s, HostOfHostPort(s))
  {
    if s != "" && s[0] == '[' {
      var rest := s[1..];
      var k := FirstOf(rest, ']');
      assert s == "[" + rest;
      if k < |rest| {
        assert "[" + rest[..k] + "]" == s[..k + 2];
      } else {
        assert rest[..k] == rest;
      }
    } else {
      var k := FirstOf(s, ':');
      if k < |s| && s[k + 1..] != [] && AllDigits(s[k + 1..]) {
        assert PortAt(s, k);
      } else {
        forall j: nat ensures !PortAt(s, j) {
          if j < |s| && s[j] == ':' && ':' !in s[..j] { FirstColon(s, j); }
        }
      }
    }
  }

  lemma FirstColon(s: string, k: nat)
    requires k < |s| && s[k] == ':' && ':' !in s[..k]
    ensures FirstOf(s, ':') == k
  {
    assert forall j :: 0 <= j < k ==> s[..k][j] == s[j];
  }

  /**
   Every text has its host read, well formed or not: what stands in front of the last
   at-sign is dropped, and the rest is read by its bracket or its port.
   */
  lemma EveryAuthorityIsRead(value: string) returns (dropped: string, rest: string)
    ensures value == dropped + rest && '@' !in rest
    ensures dropped != "" ==> dropped[|dropped| - 1] == '@'
    ensures HostIs(rest, HostOfAuthority(value))
  {
    hide HostIs;
    dropped := AfterLastAtIsTheEnd(value);
    rest := AfterLastAt(value);
    HostPortReads(rest);
  }
}
