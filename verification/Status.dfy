/**
 The status document of `src/status.rs`: the hand-written printer
 (`payload`, `json_string`) and its round trip through an RFC 8259 reader.
 */
module Status {
  import opened Json
  import opened Sequences
  import opened Wrappers

  datatype ProviderStatus = ProviderStatus(ready: bool, lastRefreshed: Option<nat>, entries: nat)

  type Row = (string, ProviderStatus)

  const NEVER_LOADED := ProviderStatus(false, None, 0)

  /** The providers in the engine's reference order. */
  const PROVIDERS: seq<string> := ["AWS", "GCP", "Azure", "DigitalOcean", "Linode", "Vultr"]

  /** The live range table; status snapshots and the blocking stage share it. */
  class CloudIpTable {
    var rows: map<string, ProviderStatus>

    constructor ()
      ensures rows == map[]
    {
      rows := map[];
    }

    function ProviderRow(provider: string): ProviderStatus
      reads this
    {
      if provider in rows then rows[provider] else NEVER_LOADED
    }
  }

  /** The handles the status route serves; the geo manager enters as its rendered snapshot. */
  datatype GuardStatus = GuardStatus(cloud: Option<CloudIpTable>, geoConfigured: bool, geoManager: Option<string>)
  {
    function Tables(): set<object>
    {
      if cloud.Some? then {cloud.value} else {}
    }

    function GeoIpStatus(): Option<string>
    {
      if geoManager.Some? then geoManager
      else if geoConfigured then Some("{\"configured\":true}")
      else None
    }

    function CloudProviderStatus(): seq<Row>
      reads Tables()
    {
      seq(|PROVIDERS|, k requires 0 <= k < |PROVIDERS| reads Tables() =>
        (PROVIDERS[k], if cloud.Some? then cloud.value.ProviderRow(PROVIDERS[k]) else NEVER_LOADED))
    }
  }

  // ---- the texts ---------------------------------------------------------------
  //
  // Each text function takes the text that follows it, so a document is built
  // from the right and no proof has to move parentheses.

  function LowerHex(n: nat): char
    requires n < 16
  {
    if n < 10 then ('0' as int + n) as char else ('a' as int + n - 10) as char
  }

  function EscapeChar(c: char): string
  {
    match c
    case '"' => "\\\""
    case '\\' => "\\\\"
    case '\n' => "\\n"
    case '\r' => "\\r"
    case '\t' => "\\t"
    case other =>
      if other as int < 0x20
      then "\\u00" + [LowerHex(other as int / 16), LowerHex(other as int % 16)]
      else [other]
  }

  function EscapeText(s: string, rest: string): string
  {
    if s == "" then rest else EscapeChar(s[0]) + EscapeText(s[1..], rest)
  }

  function Quoted(s: string, rest: string): string
  {
    "\"" + EscapeText(s, "\"" + rest)
  }

  function DecimalDigit(n: nat): (c: char)
    requires n < 10
    ensures IsDigit(c) && DigitValue(c) == n
  {
    ('0' as int + n) as char
  }

  function Decimal(n: nat): (s: string)
    ensures s != "" && forall j :: 0 <= j < |s| ==> IsDigit(s[j])
  {
    if n < 10 then [DecimalDigit(n)] else Decimal(n / 10) + [DecimalDigit(n % 10)]
  }

  function BoolText(b: bool): string
  {
    if b then "true" else "false"
  }

  function StampText(stamp: Option<nat>): string
  {
    if stamp.Some? then Decimal(stamp.value) else "null"
  }

  function Member(name: string, value: string): string
  {
    Quoted(name, ":" + value)
  }

  function RowObject(row: ProviderStatus, rest: string): string
  {
    "{" + Member("ready", BoolText(row.ready) + StampMember(row, rest))
  }

  function StampMember(row: ProviderStatus, rest: string): string
  {
    "," + Member("last_refreshed", StampText(row.lastRefreshed) + EntriesMember(row, rest))
  }

  function EntriesMember(row: ProviderStatus, rest: string): string
  {
    "," + Member("entries", Decimal(row.entries) + ("}" + rest))
  }

  /** The rows, separated by commas. */
  function Rows(rows: seq<Row>, rest: string): string
  {
    if rows == [] then rest
    else if |rows| == 1 then Member(rows[0].0, RowObject(rows[0].1, rest))
    else Member(rows[0].0, RowObject(rows[0].1, "," + Rows(rows[1..], rest)))
  }

  function GeoText(geo: Option<string>): string
  {
    if geo.Some? then geo.value else "null"
  }

  function GeoMember(geo: Option<string>): string
  {
    "}" + ("," + Member("geo_ip", GeoText(geo) + "}"))
  }

  function Document(rows: seq<Row>, geo: Option<string>): string
  {
    "{" + Member("cloud_providers", "{" + Rows(rows, GeoMember(geo)))
  }

  // ---- the printer ---------------------------------------------------------------

  lemma Associative(a: string, b: string, c: string)
    ensures (a + b) + c == a + (b + c)
  {
  }

  lemma {:induction false} EscapeTextAppends(s: string, rest: string, more: string)
    ensures EscapeText(s, rest) + more == EscapeText(s, rest + more)
  {
    if s != "" {
      EscapeTextAppends(s[1..], rest, more);
      Associative(EscapeChar(s[0]), EscapeText(s[1..], rest), more);
    }
  }

  lemma QuotedAppends(s: string, rest: string)
    ensures Quoted(s, "") + rest == Quoted(s, rest)
  {
    EscapeTextAppends(s, "\"", rest);
    Associative("\"", EscapeText(s, "\""), rest);
    assert "\"" + "" == "\"";
  }

  /** The string printer: one pass over the characters, pushing onto the buffer. */
  method JsonString(value: string) returns (out: string)
    ensures out == Quoted(value, "")
  {
    out := "\"";
    var i := 0;
    assert value[0..] == value && "\"" + "" == "\"";
    while i < |value|
      invariant 0 <= i <= |value|
      invariant out + EscapeText(value[i..], "\"") == Quoted(value, "")
    {
      var character := value[i];
      ghost var before, rest := out, value[i..];
      if character == '"' {
        out := out + "\\\"";
      } else if character == '\\' {
        out := out + "\\\\";
      } else if character == '\n' {
        out := out + "\\n";
      } else if character == '\r' {
        out := out + "\\r";
      } else if character == '\t' {
        out := out + "\\t";
      } else if character as int < 0x20 {
        out := out + ("\\u00" + [LowerHex(character as int / 16), LowerHex(character as int % 16)]);
      } else {
        out := out + [character];
      }
      assert out == before + EscapeChar(character);
      assert rest[1..] == value[i + 1..];
      Associative(before, EscapeChar(character), EscapeText(value[i + 1..], "\""));
      i := i + 1;
    }
    out := out + "\"";
  }

  predicate IsPlain(c: char)
  {
    c as int >= 0x20 && c != '"' && c != '\\'
  }

  lemma {:induction false} PlainText(s: string, rest: string)
    requires forall c | c in s :: IsPlain(c)
    ensures EscapeText(s, rest) == s + rest
  {
    if s == "" {
      assert s + rest == rest;
    } else {
      assert IsPlain(s[0]);
      PlainText(s[1..], rest);
      assert [s[0]] + (s[1..] + rest) == s + rest;
    }
  }

  lemma PlainMember(name: string, value: string)
    requires forall c | c in name :: IsPlain(c)
    ensures Member(name, value) == "\"" + (name + ("\":" + value))
  {
    PlainText(name, "\"" + (":" + value));
    assert "\"" + (":" + value) == "\":" + value;
  }

  /** One push: what is still to come loses the pushed piece. */
  lemma Push(whole: string, payload: string, piece: string, todo: string)
    requires whole == payload + (piece + todo)
    ensures whole == (payload + piece) + todo
  {
  }

  lemma OpeningLiteral(rest: string)
    ensures "{" + Member("cloud_providers", "{" + rest) == "{\"cloud_providers\":{" + rest
  {
    PlainMember("cloud_providers", "{" + rest);
  }

  lemma ReadyLiteral(rest: string)
    ensures ":" + ("{" + Member("ready", rest)) == ":{\"ready\":" + rest
  {
    PlainMember("ready", rest);
  }

  lemma StampLiteral(rest: string)
    ensures "," + Member("last_refreshed", rest) == ",\"last_refreshed\":" + rest
  {
    PlainMember("last_refreshed", rest);
  }

  lemma EntriesLiteral(rest: string)
    ensures "," + Member("entries", rest) == ",\"entries\":" + rest
  {
    PlainMember("entries", rest);
  }

  lemma GeoLiteral(rest: string)
    ensures "}" + ("," + Member("geo_ip", rest)) == "}," + ("\"geo_ip\":" + rest)
  {
    PlainMember("geo_ip", rest);
  }

  /** What a row prints in front of `rest`, with the comma it needs. */
  function Separated(first: bool, rows: seq<Row>, rest: string): string
  {
    if rows == [] then rest else if first then Rows(rows, rest) else "," + Rows(rows, rest)
  }

  lemma SeparatedStep(rows: seq<Row>, rest: string)
    requires rows != []
    ensures Rows(rows, rest) == Member(rows[0].0, RowObject(rows[0].1, Separated(false, rows[1..], rest)))
  {
  }

  /** One row pushed piece by piece behind what is printed already. */
  method PushRow(before: string, provider: string, row: ProviderStatus, ghost todo: string) returns (payload: string)
    ensures payload + todo == before + Member(provider, RowObject(row, todo))
  {
    ghost var whole := before + Member(provider, RowObject(row, todo));
    payload := before;
    var name := JsonString(provider);
    ghost var r0 := BoolText(row.ready) + StampMember(row, todo);
    QuotedAppends(provider, ":" + RowObject(row, todo));
    ReadyLiteral(r0);
    Push(whole, payload, name, ":{\"ready\":" + r0);
    payload := payload + name;
    Push(whole, payload, ":{\"ready\":", r0);
    payload := payload + ":{\"ready\":";
    Push(whole, payload, BoolText(row.ready), StampMember(row, todo));
    payload := payload + if row.ready then "true" else "false";
    ghost var r1 := StampText(row.lastRefreshed) + EntriesMember(row, todo);
    StampLiteral(r1);
    Push(whole, payload, ",\"last_refreshed\":", r1);
    payload := payload + ",\"last_refreshed\":";
    Push(whole, payload, StampText(row.lastRefreshed), EntriesMember(row, todo));
    match row.lastRefreshed {
      case Some(stamp) => payload := payload + Decimal(stamp);
      case None => payload := payload + "null";
    }
    ghost var r2 := Decimal(row.entries) + ("}" + todo);
    EntriesLiteral(r2);
    Push(whole, payload, ",\"entries\":", r2);
    payload := payload + ",\"entries\":";
    Push(whole, payload, Decimal(row.entries), "}" + todo);
    payload := payload + Decimal(row.entries);
    Push(whole, payload, "}", todo);
    payload := payload + "}";
  }

  /** The document printer: the `first` flag decides where the commas go. */
  method Payload(status: GuardStatus) returns (payload: string)
    ensures payload == Document(status.CloudProviderStatus(), status.GeoIpStatus())
    ensures forall geo: Json :: GeoMeans(status, geo) ==> Parse(payload) == Some(StatusMeans(status, geo))
  {
    var rows := status.CloudProviderStatus();
    var geo := status.GeoIpStatus();
    ghost var whole, end := Document(rows, geo), GeoMember(geo);
    OpeningLiteral(Rows(rows, end));
    payload := "{\"cloud_providers\":{";
    var first := true;
    var i := 0;
    assert rows[0..] == rows;
    while i < |rows|
      invariant 0 <= i <= |rows|
      invariant first <==> i == 0
      invariant whole == payload + Separated(first, rows[i..], end)
    {
      ghost var rest := rows[i..];
      if first {
        first := false;
      } else {
        Push(whole, payload, ",", Rows(rest, end));
        payload := payload + ",";
      }
      assert rest[1..] == rows[i + 1..];
      SeparatedStep(rest, end);
      payload := PushRow(payload, rows[i].0, rows[i].1, Separated(false, rows[i + 1..], end));
      i := i + 1;
    }
    GeoLiteral(GeoText(geo) + "}");
    assert whole == payload + ("}," + ("\"geo_ip\":" + (GeoText(geo) + "}")));
    Push(whole, payload, "},", "\"geo_ip\":" + (GeoText(geo) + "}"));
    payload := payload + "},";
    Push(whole, payload, "\"geo_ip\":", GeoText(geo) + "}");
    Push(whole, payload + "\"geo_ip\":", GeoText(geo), "}");
    match geo {
      case Some(text) =>
        payload := payload + "\"geo_ip\":";
        payload := payload + text;
      case None =>
        assert (payload + "\"geo_ip\":") + "null" == payload + "\"geo_ip\":null";
        payload := payload + "\"geo_ip\":null";
    }
    assert whole == payload + "}";
    payload := payload + "}";
    assert rows == status.CloudProviderStatus();
    forall value: Json | GeoMeans(status, value) ensures Parse(payload) == Some(StatusMeans(status, value)) {
      PayloadReads(status, value);
    }
  }

  // ---- what the document means ---------------------------------------------------

  /** The live row of a provider: the table's, or one that was never loaded. */
  function LiveRow(status: GuardStatus, provider: string): ProviderStatus
    reads status.Tables()
  {
    match status.cloud
    case None => ProviderStatus(ready := false, lastRefreshed := None, entries := 0)
    case Some(table) =>
      if provider in table.rows then table.rows[provider]
      else ProviderStatus(ready := false, lastRefreshed := None, entries := 0)
  }

  function RowMeans(row: ProviderStatus): Json
  {
    JObject([("ready", JBool(row.ready)),
             ("last_refreshed", match row.lastRefreshed { case Some(stamp) => Natural(stamp) case None => JNull }),
             ("entries", Natural(row.entries))])
  }

  /** The status as a JSON value: six providers with their live rows, then the geo component. */
  function StatusMeans(status: GuardStatus, geo: Json): Json
    reads status.Tables()
  {
    JObject([("cloud_providers",
              JObject([("AWS", RowMeans(LiveRow(status, "AWS"))),
                       ("GCP", RowMeans(LiveRow(status, "GCP"))),
                       ("Azure", RowMeans(LiveRow(status, "Azure"))),
                       ("DigitalOcean", RowMeans(LiveRow(status, "DigitalOcean"))),
                       ("Linode", RowMeans(LiveRow(status, "Linode"))),
                       ("Vultr", RowMeans(LiveRow(status, "Vultr")))])),
             ("geo_ip", geo)])
  }

  /**
   What the geo component means: the manager's value whenever there is a manager,
   else the configured flag, else null.
   */
  ghost predicate GeoMeans(status: GuardStatus, geo: Json)
  {
    match status.geoManager
    case Some(snapshot) => Value(snapshot + "}") == Some((geo, "}"))
    case None => geo == if status.geoConfigured then JObject([("configured", JBool(true))]) else JNull
  }

  lemma GeoReads(status: GuardStatus, geo: Json)
    requires GeoMeans(status, geo)
    ensures GeoReadsAs(status.GeoIpStatus(), geo)
  {
    hide Value, Parse;
    if status.geoManager.None? {
      assert [("configured", JBool(true))] + [] == [("configured", JBool(true))];
      GeoComponentReads(status);
    }
  }

  lemma RowMeansItsMembers(row: ProviderStatus)
    ensures RowValue(row) == RowMeans(row)
  {
    assert RowMembersOf(row) ==
           [("ready", JBool(row.ready)), ("last_refreshed", StampValue(row.lastRefreshed)), ("entries", Natural(row.entries))];
  }

  lemma {:induction false} RowMembersAt(rows: seq<Row>, k: nat)
    requires k < |rows|
    ensures |RowMembers(rows)| == |rows| && RowMembers(rows)[k] == (rows[k].0, RowMeans(rows[k].1))
  {
    hide RowMeans, RowValue;
    RowMeansItsMembers(rows[0].1);
    RowMembersLength(rows);
    if k > 0 {
      RowMembersAt(rows[1..], k - 1);
      assert RowMembers(rows)[1..] == RowMembers(rows[1..]);
      assert RowMembers(rows)[1..][k - 1] == RowMembers(rows)[k];
    }
  }

  lemma ProvidersMean(status: GuardStatus)
    ensures StatusMeans(status, JNull).members[0] == ("cloud_providers", JObject(RowMembers(status.CloudProviderStatus())))
  {
    hide RowMembers, RowMeans;
    var rows := status.CloudProviderStatus();
    assert |rows| == 6;
    RowMembersAt(rows, 0);
    RowMembersAt(rows, 1);
    RowMembersAt(rows, 2);
    RowMembersAt(rows, 3);
    RowMembersAt(rows, 4);
    RowMembersAt(rows, 5);
    assert RowMembers(rows) == StatusMeans(status, JNull).members[0].1.members;
  }

  /** The printed status means the live rows and the geo component. */
  lemma PayloadReads(status: GuardStatus, geo: Json)
    requires GeoMeans(status, geo)
    ensures Parse(Document(status.CloudProviderStatus(), status.GeoIpStatus())) == Some(StatusMeans(status, geo))
  {
    hide Parse, Document, RowMembers, RowMeans;
    GeoReads(status, geo);
    DocumentRoundTrip(status.CloudProviderStatus(), status.GeoIpStatus(), geo);
    ProvidersMean(status);
    var first := StatusMeans(status, JNull).members[0];
    assert [first] + [("geo_ip", geo)] == StatusMeans(status, geo).members;
  }

  // ---- round trips ---------------------------------------------------------------

  lemma EscapeCharReads(c: char, rest: string)
    ensures EscapeChar(c) != "" && EscapeChar(c)[0] >= ' ' && EscapeChar(c)[0] != '"'
    ensures if EscapeChar(c)[0] == '\\'
            then Escaped((EscapeChar(c) + rest)[1..]) == Some((c, rest))
            else EscapeChar(c) == [c]
  {
    var s := (EscapeChar(c) + rest)[1..];
    var n := c as int;
    if c !in {'"', '\\', '\n', '\r', '\t'} && n < 0x20 {
      assert s == ['u', '0', '0', LowerHex(n / 16), LowerHex(n % 16)] + rest;
      assert HexValue(LowerHex(n / 16)) == Some(n / 16) && HexValue(LowerHex(n % 16)) == Some(n % 16);
      assert s[1..][4..] == rest;
      assert Hex4(s[1..]) == Some((n, rest));
    } else if EscapeChar(c)[0] == '\\' {
      assert s[1..] == rest;
    }
  }

  /** Section 7 unescaping inverts the string printer, whatever follows the string. */
  lemma {:induction false} StringRoundTrip(s: string, rest: string)
    ensures StringBody(EscapeText(s, "\"" + rest)) == Some((s, rest))
  {
    if s == "" {
      assert ("\"" + rest)[1..] == rest;
    } else {
      var e, tail := EscapeChar(s[0]), EscapeText(s[1..], "\"" + rest);
      EscapeCharReads(s[0], tail);
      StringRoundTrip(s[1..], rest);
      if e[0] != '\\' {
        assert (e + tail)[1..] == tail;
      }
      assert [s[0]] + s[1..] == s;
    }
  }

  /** The printed string reads back as the text, for every text. */
  lemma JsonStringRoundTrip(s: string)
    ensures Parse(Quoted(s, "")) == Some(JString(s))
  {
    StringRoundTrip(s, "");
    assert Quoted(s, "")[1..] == EscapeText(s, "\"" + "");
  }

  /** Two different texts never print alike. */
  lemma QuotedIsInjective(a: string, b: string)
    requires Quoted(a, "") == Quoted(b, "")
    ensures a == b
  {
    JsonStringRoundTrip(a);
    JsonStringRoundTrip(b);
  }

  lemma {:induction false} DecimalValue(n: nat)
    ensures ValueOf(Decimal(n)) == n
    ensures n > 0 ==> Decimal(n)[0] != '0'
    ensures n == 0 ==> Decimal(n) == "0"
  {
    if n >= 10 {
      DecimalValue(n / 10);
      assert Decimal(n)[..|Decimal(n)| - 1] == Decimal(n / 10);
    } else {
      assert [DecimalDigit(n)][..0] == "";
    }
  }

  lemma {:induction false} DigitRunStops(digits: string, rest: string)
    requires forall j :: 0 <= j < |digits| ==> IsDigit(digits[j])
    requires rest != "" && !IsDigit(rest[0])
    ensures DigitRun(digits + rest) == |digits|
  {
    if digits == "" {
      assert digits + rest == rest;
    } else {
      assert (digits + rest)[1..] == digits[1..] + rest;
      DigitRunStops(digits[1..], rest);
    }
  }

  /** What follows a member value in the document. */
  predicate EndsValue(rest: string)
  {
    rest != "" && rest[0] in {',', '}'}
  }

  lemma NaturalRoundTrip(n: nat, rest: string)
    requires EndsValue(rest)
    ensures Value(Decimal(n) + rest) == Some((Natural(n), rest))
  {
    var d := Decimal(n);
    DecimalValue(n);
    DigitRunStops(d, rest);
    assert IsDigit((d + rest)[0]);
    assert (d + rest)[..|d|] == d && (d + rest)[|d|..] == rest;
    assert SkipSpace(d + rest) == d + rest;
    assert !StartsWith(d + rest, "true") && !StartsWith(d + rest, "false") && !StartsWith(d + rest, "null") by {
      assert "true"[0] == 't' && "false"[0] == 'f' && "null"[0] == 'n';
      assert forall p: string :: StartsWith(d + rest, p) && p != "" ==> (d + rest)[0] == (d + rest)[..|p|][0];
    }
    assert Whole(d + rest) == Some((n, rest));
  }

  lemma LiteralRoundTrip(rest: string)
    ensures Value("true" + rest) == Some((JBool(true), rest))
    ensures Value("false" + rest) == Some((JBool(false), rest))
    ensures Value("null" + rest) == Some((JNull, rest))
  {
    assert ("true" + rest)[..4] == "true" && ("true" + rest)[4..] == rest;
    assert ("false" + rest)[..5] == "false" && ("false" + rest)[5..] == rest;
    assert ("null" + rest)[..4] == "null" && ("null" + rest)[4..] == rest;
    assert !StartsWith("false" + rest, "true") by { assert ("false" + rest)[..4][0] == 'f'; }
    assert !StartsWith("null" + rest, "true") by { assert ("null" + rest)[..4][0] == 'n'; }
    assert !StartsWith("null" + rest, "false") by {
      if |rest| > 0 { assert ("null" + rest)[..5][0] == 'n'; }
    }
  }

  function StampValue(stamp: Option<nat>): Json
  {
    if stamp.Some? then Natural(stamp.value) else JNull
  }

  /** One member and what the reader does with it. */
  lemma MemberReads(name: string, value: Json, text: string, rest: string)
    requires EndsValue(rest)
    requires Value(text) == Some((value, rest))
    ensures var r := Members(Member(name, text));
            if rest[0] == '}' then r == Some(([(name, value)], rest[1..]))
            else
              var more := Members(rest[1..]);
              r == if more.None? then None else Some(([(name, value)] + more.value.0, more.value.1))
  {
    var s := Member(name, text);
    var after := ":" + text;
    assert s[0] == '"' && s[1..] == EscapeText(name, "\"" + after);
    StringRoundTrip(name, after);
    assert after[1..] == text;
  }

  lemma ObjectReads(t: string, members: seq<(string, Json)>, rest: string)
    requires t != "" && t[0] == '"'
    requires Members(t) == Some((members, rest))
    ensures Value("{" + t) == Some((JObject(members), rest))
  {
    assert ("{" + t)[1..] == t;
  }

  function RowMembersOf(row: ProviderStatus): seq<(string, Json)>
  {
    [("ready", JBool(row.ready))]
    + ([("last_refreshed", StampValue(row.lastRefreshed))] + [("entries", Natural(row.entries))])
  }

  function RowValue(row: ProviderStatus): Json
  {
    JObject(RowMembersOf(row))
  }

  function RowMembers(rows: seq<Row>): seq<(string, Json)>
  {
    if rows == [] then [] else [(rows[0].0, RowValue(rows[0].1))] + RowMembers(rows[1..])
  }

  /** A member behind a comma, read together with the members that follow it. */
  lemma NextMemberReads(name: string, value: Json, text: string, end: string, members: seq<(string, Json)>, rest: string)
    requires Value(text) == Some((value, end))
    requires end != ""
    requires if end[0] == '}' then members == [] && rest == end[1..]
             else end[0] == ',' && Members(end[1..]) == Some((members, rest))
    ensures Members(Member(name, text)) == Some(([(name, value)] + members, rest))
    ensures ("," + Member(name, text))[1..] == Member(name, text)
    ensures Member(name, text)[0] == '"'
  {
    MemberReads(name, value, text, end);
    assert [(name, value)] + [] == [(name, value)];
  }

  lemma StampTextReads(stamp: Option<nat>, end: string)
    requires EndsValue(end)
    ensures Value(StampText(stamp) + end) == Some((StampValue(stamp), end))
  {
    if stamp.Some? { NaturalRoundTrip(stamp.value, end); } else { LiteralRoundTrip(end); }
  }

  lemma BoolTextReads(b: bool, end: string)
    ensures Value(BoolText(b) + end) == Some((JBool(b), end))
  {
    LiteralRoundTrip(end);
  }

  lemma EntriesRead(row: ProviderStatus, rest: string)
    ensures EntriesMember(row, rest)[0] == ','
    ensures Members(EntriesMember(row, rest)[1..]) == Some(([("entries", Natural(row.entries))], rest))
  {
    var end := "}" + rest;
    assert end[1..] == rest;
    NaturalRoundTrip(row.entries, end);
    NextMemberReads("entries", Natural(row.entries), Decimal(row.entries) + end, end, [], rest);
    assert [("entries", Natural(row.entries))] + [] == [("entries", Natural(row.entries))];
  }

  lemma StampReads(row: ProviderStatus, rest: string)
    ensures StampMember(row, rest)[0] == ','
    ensures Members(StampMember(row, rest)[1..])
            == Some(([("last_refreshed", StampValue(row.lastRefreshed))] + [("entries", Natural(row.entries))], rest))
  {
    var end := EntriesMember(row, rest);
    EntriesRead(row, rest);
    StampTextReads(row.lastRefreshed, end);
    NextMemberReads("last_refreshed", StampValue(row.lastRefreshed), StampText(row.lastRefreshed) + end, end,
                    [("entries", Natural(row.entries))], rest);
  }

  lemma RowObjectReads(row: ProviderStatus, rest: string)
    ensures Value(RowObject(row, rest)) == Some((RowValue(row), rest))
  {
    var end := StampMember(row, rest);
    StampReads(row, rest);
    BoolTextReads(row.ready, end);
    var members := [("last_refreshed", StampValue(row.lastRefreshed))] + [("entries", Natural(row.entries))];
    NextMemberReads("ready", JBool(row.ready), BoolText(row.ready) + end, end, members, rest);
    ObjectReads(Member("ready", BoolText(row.ready) + end), RowMembersOf(row), rest);
  }

  lemma {:induction false} RowsRead(rows: seq<Row>, rest: string)
    requires rows != []
    ensures Rows(rows, "}" + rest)[0] == '"'
    ensures Members(Rows(rows, "}" + rest)) == Some((RowMembers(rows), rest))
  {
    var (name, row) := rows[0];
    var more := if |rows| == 1 then "}" + rest else "," + Rows(rows[1..], "}" + rest);
    RowObjectReads(row, more);
    if |rows| == 1 {
      assert more[1..] == rest;
      assert RowMembers(rows[1..]) == [];
    } else {
      assert more[1..] == Rows(rows[1..], "}" + rest);
      RowsRead(rows[1..], rest);
    }
    NextMemberReads(name, RowValue(row), RowObject(row, more), more, RowMembers(rows[1..]), rest);
  }

  lemma ProvidersRead(rows: seq<Row>, rest: string)
    ensures Value("{" + Rows(rows, "}" + rest)) == Some((JObject(RowMembers(rows)), rest))
  {
    var t := Rows(rows, "}" + rest);
    assert ("{" + t)[1..] == t;
    if rows == [] {
      assert t[1..] == rest;
    } else {
      RowsRead(rows, rest);
      ObjectReads(t, RowMembers(rows), rest);
    }
  }

  function DocumentValue(rows: seq<Row>, geo: Json): Json
  {
    JObject([("cloud_providers", JObject(RowMembers(rows)))] + [("geo_ip", geo)])
  }

  /** The geo text is one JSON value `g`, as an object member needs it. */
  ghost predicate GeoReadsAs(geo: Option<string>, g: Json)
  {
    Value(GeoText(geo) + "}") == Some((g, "}"))
  }

  /**
   The document round trip: for every list of rows, any names, flags, stamps and
   counts, reading the printed document returns the rows in order. The text of
   the geo component only has to be one JSON value.
   */
  lemma DocumentRoundTrip(rows: seq<Row>, geo: Option<string>, g: Json)
    requires GeoReadsAs(geo, g)
    ensures Parse(Document(rows, geo)) == Some(DocumentValue(rows, g))
  {
    TwoMembersRead("cloud_providers", rows, "geo_ip", geo, g);
  }

  lemma TwoMembersRead(first: string, rows: seq<Row>, second: string, geo: Option<string>, g: Json)
    requires GeoReadsAs(geo, g)
    ensures Parse("{" + Member(first, "{" + Rows(rows, "}" + ("," + Member(second, GeoText(geo) + "}")))))
            == Some(JObject([(first, JObject(RowMembers(rows)))] + [(second, g)]))
  {
    assert "}"[1..] == "";
    NextMemberReads(second, g, GeoText(geo) + "}", "}", [], "");
    assert [(second, g)] + [] == [(second, g)];
    var end := "," + Member(second, GeoText(geo) + "}");
    ProvidersRead(rows, end);
    var providers := "{" + Rows(rows, "}" + end);
    NextMemberReads(first, JObject(RowMembers(rows)), providers, end, [(second, g)], "");
    ObjectReads(Member(first, providers), [(first, JObject(RowMembers(rows)))] + [(second, g)], "");
  }

  /** Without a lifecycle manager the geo component is `null` or the configured flag. */
  lemma GeoComponentReads(status: GuardStatus)
    requires status.geoManager.None?
    ensures GeoReadsAs(status.GeoIpStatus(),
                       if status.geoConfigured then JObject([("configured", JBool(true))] + []) else JNull)
  {
    if status.geoConfigured {
      ConfiguredReads();
    } else {
      LiteralRoundTrip("}");
    }
  }

  lemma ConfiguredReads()
    ensures Value("{\"configured\":true}" + "}") == Some((JObject([("configured", JBool(true))] + []), "}"))
  {
    FlagReads("configured");
    ConfiguredText();
  }

  lemma ConfiguredText()
    ensures "{\"configured\":true}" + "}" == "{" + Member("configured", "true}}")
  {
    PlainMember("configured", "true}}");
  }

  lemma FlagReads(name: string)
    ensures Value("{" + Member(name, "true}}")) == Some((JObject([(name, JBool(true))] + []), "}"))
  {
    LiteralRoundTrip("}}");
    assert "true" + "}}" == "true}}" && "}}"[1..] == "}";
    NextMemberReads(name, JBool(true), "true}}", "}}", [], "}");
    ObjectReads(Member(name, "true}}"), [(name, JBool(true))] + [], "}");
  }

  lemma {:induction false} RowMembersInjective(a: seq<Row>, b: seq<Row>)
    requires RowMembers(a) == RowMembers(b)
    ensures a == b
  {
    RowMembersLength(a);
    RowMembersLength(b);
    if a != [] {
      assert RowMembers(a)[0] == RowMembers(b)[0];
      assert RowMembers(a)[1..] == RowMembers(a[1..]) && RowMembers(b)[1..] == RowMembers(b[1..]);
      RowMembersInjective(a[1..], b[1..]);
      var va, vb := RowValue(a[0].1).members, RowValue(b[0].1).members;
      assert va[0].1 == vb[0].1 && va[1].1 == vb[1].1 && va[2].1 == vb[2].1;
      assert a == [a[0]] + a[1..] && b == [b[0]] + b[1..];
    }
  }

  lemma {:induction false} RowMembersLength(a: seq<Row>)
    ensures |RowMembers(a)| == |a|
  {
    if a != [] { RowMembersLength(a[1..]); }
  }

  /** The printed status loses nothing: equal documents come from equal rows. */
  lemma DocumentIsInjective(a: seq<Row>, b: seq<Row>, geoA: Option<string>, geoB: Option<string>, g: Json, h: Json)
    requires GeoReadsAs(geoA, g) && GeoReadsAs(geoB, h)
    requires Document(a, geoA) == Document(b, geoB)
    ensures a == b && g == h
  {
    DocumentRoundTrip(a, geoA, g);
    DocumentRoundTrip(b, geoB, h);
    var ma, mb := DocumentValue(a, g).members, DocumentValue(b, h).members;
    assert ma[0].1 == mb[0].1 && ma[1].1 == mb[1].1;
    RowMembersInjective(a, b);
  }
}
