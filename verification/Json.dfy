/**
 A reader for JSON texts as RFC 8259 defines them: values and whitespace
 (sections 2 and 3), objects (section 4), arrays (section 5), numbers
 (section 6) and strings with their escapes (section 7). It is the reference
 the hand-written printer of `src/status.rs` is proved against.

 Every function takes the text still to be read and returns what it read
 together with the text that follows.
 */
module Json {
  import opened Sequences
  import opened Wrappers

  datatype Number = Number(minus: bool, whole: nat, fraction: Option<string>, exponent: Option<string>)

  datatype Json =
    | JNull
    | JBool(truth: bool)
    | JNumber(number: Number)
    | JString(text: string)
    | JArray(items: seq<Json>)
    | JObject(members: seq<(string, Json)>)

  function Natural(n: nat): Json
  {
    JNumber(Number(false, n, None, None))
  }

  // ---- lexical pieces ------------------------------------------------------

  predicate IsSpace(c: char) { c in {' ', '\t', '\n', '\r'} }

  function SkipSpace(s: string): (r: string)
    ensures |r| <= |s|
  {
    if s != "" && IsSpace(s[0]) then SkipSpace(s[1..]) else s
  }

  /** How many digits the text starts with. */
  function DigitRun(s: string): (k: nat)
    ensures k <= |s|
    ensures forall j :: 0 <= j < k ==> IsDigit(s[j])
  {
    if s != "" && IsDigit(s[0]) then 1 + DigitRun(s[1..]) else 0
  }

  function DigitValue(c: char): nat
    requires IsDigit(c)
  {
    c as int - '0' as int
  }

  /** The number a run of decimal digits denotes. */
  function ValueOf(digits: string): nat
    requires forall j :: 0 <= j < |digits| ==> IsDigit(digits[j])
  {
    if digits == "" then 0
    else 10 * ValueOf(digits[..|digits| - 1]) + DigitValue(digits[|digits| - 1])
  }

  function HexValue(c: char): (r: Option<nat>)
    ensures r.Some? ==> r.value < 16
  {
    if '0' <= c <= '9' then Some(c as int - '0' as int)
    else if 'a' <= c <= 'f' then Some(10 + c as int - 'a' as int)
    else if 'A' <= c <= 'F' then Some(10 + c as int - 'A' as int)
    else None
  }

  /** Four hexadecimal digits. */
  function Hex4(s: string): (r: Option<(nat, string)>)
    ensures r.Some? ==> r.value.0 < 0x1_0000 && |r.value.1| + 4 == |s|
  {
    if |s| < 4 then None
    else
      var a :- HexValue(s[0]);
      var b :- HexValue(s[1]);
      var c :- HexValue(s[2]);
      var d :- HexValue(s[3]);
      Some((4096 * a + 256 * b + 16 * c + d, s[4..]))
  }

  /** The character an escape denotes; `s` starts behind the reverse solidus. */
  function Escaped(s: string): (r: Option<(char, string)>)
    ensures r.Some? ==> |r.value.1| < |s|
  {
    if s == "" then None
    else match s[0]
      case '"' => Some(('"', s[1..]))
      case '\\' => Some(('\\', s[1..]))
      case '/' => Some(('/', s[1..]))
      case 'b' => Some((8 as char, s[1..]))
      case 'f' => Some((12 as char, s[1..]))
      case 'n' => Some(('\n', s[1..]))
      case 'r' => Some(('\r', s[1..]))
      case 't' => Some(('\t', s[1..]))
      case 'u' =>
        var (code, rest) :- Hex4(s[1..]);
        if code < 0xD800 || 0xE000 <= code then Some((code as char, rest))
        else if code < 0xDC00 && |rest| > 2 && rest[0] == '\\' && rest[1] == 'u' then
          var (low, tail) :- Hex4(rest[2..]);
          if 0xDC00 <= low < 0xE000 then
            Some(((0x1_0000 + 0x400 * (code - 0xD800) + (low - 0xDC00)) as char, tail))
          else None
        else None
      case _ => None
  }

  /** The string whose opening quotation mark was just read. */
  function StringBody(s: string): (r: Option<(string, string)>)
    ensures r.Some? ==> |r.value.1| < |s|
    decreases |s|
  {
    if s == "" || s[0] < ' ' then None
    else if s[0] == '"' then Some(("", s[1..]))
    else
      var (c, rest) :- if s[0] == '\\' then Escaped(s[1..]) else Some((s[0], s[1..]));
      var (more, tail) :- StringBody(rest);
      Some(([c] + more, tail))
  }

  /** A run of at least one digit. */
  function Digits(s: string): (r: Option<(string, string)>)
    ensures r.Some? ==> |r.value.1| < |s| && forall j :: 0 <= j < |r.value.0| ==> IsDigit(r.value.0[j])
  {
    var k := DigitRun(s);
    if k == 0 then None else Some((s[..k], s[k..]))
  }

  /** The integer part: no superfluous leading zero. */
  function Whole(s: string): (r: Option<(nat, string)>)
    ensures r.Some? ==> |r.value.1| < |s|
  {
    if s != "" && s[0] == '0' then Some((0, s[1..]))
    else
      var (digits, rest) :- Digits(s);
      Some((ValueOf(digits), rest))
  }

  function Fraction(s: string): (r: Option<(Option<string>, string)>)
    ensures r.Some? ==> |r.value.1| <= |s|
  {
    if s != "" && s[0] == '.' then
      var (digits, rest) :- Digits(s[1..]);
      Some((Some(digits), rest))
    else Some((None, s))
  }

  function Exponent(s: string): (r: Option<(Option<string>, string)>)
    ensures r.Some? ==> |r.value.1| <= |s|
  {
    if s != "" && s[0] in {'e', 'E'} then
      var sign := if |s| > 1 && s[1] in {'+', '-'} then 1 else 0;
      var (digits, rest) :- Digits(s[1 + sign..]);
      Some((Some(s[1..1 + sign] + digits), rest))
    else Some((None, s))
  }

  function NumberBody(s: string): (r: Option<(Json, string)>)
    ensures r.Some? ==> |r.value.1| < |s|
  {
    var minus := s != "" && s[0] == '-';
    var (whole, a) :- Whole(if minus then s[1..] else s);
    var (fraction, b) :- Fraction(a);
    var (exponent, c) :- Exponent(b);
    Some((JNumber(Number(minus, whole, fraction, exponent)), c))
  }

  predicate StartsWith(s: string, prefix: string)
  {
    |prefix| <= |s| && s[..|prefix|] == prefix
  }

  // ---- values ----------------------------------------------------------------

  function Value(s: string): (r: Option<(Json, string)>)
    ensures r.Some? ==> |r.value.1| < |s|
    decreases |s|, 1
  {
    var t := SkipSpace(s);
    if t == "" then None
    else if t[0] == '{' then
      var u := SkipSpace(t[1..]);
      if u != "" && u[0] == '}' then Some((JObject([]), u[1..]))
      else
        var (members, rest) :- Members(t[1..]);
        Some((JObject(members), rest))
    else if t[0] == '[' then
      var u := SkipSpace(t[1..]);
      if u != "" && u[0] == ']' then Some((JArray([]), u[1..]))
      else
        var (items, rest) :- Items(t[1..]);
        Some((JArray(items), rest))
    else if t[0] == '"' then
      var (text, rest) :- StringBody(t[1..]);
      Some((JString(text), rest))
    else if StartsWith(t, "true") then Some((JBool(true), t[4..]))
    else if StartsWith(t, "false") then Some((JBool(false), t[5..]))
    else if StartsWith(t, "null") then Some((JNull, t[4..]))
    else NumberBody(t)
  }

  /** The members of an object, up to and including the closing brace. */
  function Members(s: string): (r: Option<(seq<(string, Json)>, string)>)
    ensures r.Some? ==> |r.value.1| < |s|
    decreases |s|, 0
  {
    var t := SkipSpace(s);
    if t == "" || t[0] != '"' then None
    else
      var (name, a) :- StringBody(t[1..]);
      var b := SkipSpace(a);
      if b == "" || b[0] != ':' then None
      else
        var (value, c) :- Value(b[1..]);
        var d := SkipSpace(c);
        if d == "" then None
        else if d[0] == '}' then Some(([(name, value)], d[1..]))
        else if d[0] == ',' then
          var (more, e) :- Members(d[1..]);
          Some(([(name, value)] + more, e))
        else None
  }

  /** The items of an array, up to and including the closing bracket. */
  function Items(s: string): (r: Option<(seq<Json>, string)>)
    ensures r.Some? ==> |r.value.1| < |s|
    decreases |s|, 2
  {
    var (value, c) :- Value(s);
    var d := SkipSpace(c);
    if d == "" then None
    else if d[0] == ']' then Some(([value], d[1..]))
    else if d[0] == ',' then
      var (more, e) :- Items(d[1..]);
      Some(([value] + more, e))
    else None
  }

  /** A JSON text: one value, with nothing but whitespace around it. */
  function Parse(s: string): Option<Json>
  {
    var (value, rest) :- Value(s);
    if SkipSpace(rest) == "" then Some(value) else None
  }
}
