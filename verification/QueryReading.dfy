/**
 How the query splitter of `src/service.rs` (`scan_views`) reads whatever clients
 send: bare names, values with further equals signs, and ampersands in any number.
 A query is written down by a writer of its own, and every query is one it writes.
 */
module QueryReading {
  import opened Octets
  import opened Query
  import opened Sequences
  import opened Wrappers

  /** One parameter as it stands in a query. */
  datatype Param = Bare(name: Octets) | Named(key: Octets, value: Octets)

  /** A bare name is not empty and holds no delimiter; a value may hold equals signs. */
  predicate Writable(p: Param)
  {
    match p
    case Bare(name) => name != [] && AMPERSAND !in name && EQUALS !in name
    case Named(key, value) => AMPERSAND !in key && EQUALS !in key && AMPERSAND !in value
  }

  function TextOf(p: Param): Octets
  {
    match p
    case Bare(name) => name
    case Named(key, value) => key + [EQUALS] + value
  }

  function Ampersands(n: nat): Octets
  {
    if n == 0 then [] else [AMPERSAND] + Ampersands(n - 1)
  }

  /** A parameter and the ampersands behind it. */
  datatype Sent = Sent(param: Param, gap: nat)

  /** Between two parameters there is an ampersand. */
  predicate Separate(sent: seq<Sent>)
  {
    && (forall k :: 0 <= k < |sent| ==> Writable(sent[k].param))
    && (forall k :: 0 <= k < |sent| - 1 ==> sent[k].gap > 0)
  }

  function WrittenFrom(sent: seq<Sent>): Octets
  {
    if sent == [] then [] else TextOf(sent[0].param) + Ampersands(sent[0].gap) + WrittenFrom(sent[1..])
  }

  /** The query text: some ampersands, then the parameters with theirs. */
  function Written(lead: nat, sent: seq<Sent>): Octets
  {
    Ampersands(lead) + WrittenFrom(sent)
  }

  /** What a parameter means: a bare name has the empty value. */
  function MeaningOf(p: Param): (Octets, Octets)
  {
    match p
    case Bare(name) => (Decode(name), [])
    case Named(key, value) => (Decode(key), Decode(value))
  }

  function Meant(sent: seq<Sent>): seq<(Octets, Octets)>
  {
    seq(|sent|, k requires 0 <= k < |sent| => MeaningOf(sent[k].param))
  }

  // ---- reading ---------------------------------------------------------------------------------

  lemma ParamReads(p: Param)
    requires Writable(p)
    ensures PairOf(TextOf(p)) == MeaningOf(p)
    ensures AMPERSAND !in TextOf(p) && TextOf(p) != []
  {
    hide Decode;
    match p {
      case Bare(name) => FirstOfAbsent(name, EQUALS);
      case Named(key, value) =>
        FirstOfConcatenation(key, EQUALS, value);
        var text := key + [EQUALS] + value;
        assert text[..|key|] == key && text[|key| + 1..] == value;
    }
  }

  /** An ampersand in front changes nothing. */
  lemma LeadingAmpersand(rest: Octets)
    ensures QueryParams([AMPERSAND] + rest) == QueryParams(rest)
  {
    hide PairsOf;
    SplitFirst([], AMPERSAND, rest);
    assert [] + [AMPERSAND] + rest == [AMPERSAND] + rest;
    assert ([[]] + Split(rest, AMPERSAND))[1..] == Split(rest, AMPERSAND);
  }

  lemma {:induction false} LeadingAmpersands(n: nat, rest: Octets)
    ensures QueryParams(Ampersands(n) + rest) == QueryParams(rest)
  {
    hide QueryParams;
    if n == 0 {
      assert Ampersands(0) + rest == rest;
    } else {
      assert Ampersands(n) + rest == [AMPERSAND] + (Ampersands(n - 1) + rest);
      LeadingAmpersand(Ampersands(n - 1) + rest);
      LeadingAmpersands(n - 1, rest);
    }
  }

  lemma TextFirst(piece: Octets, n: nat, rest: Octets)
    requires n > 0
    ensures piece + Ampersands(n) + rest == piece + [AMPERSAND] + (Ampersands(n - 1) + rest)
  {
  }

  lemma {:induction false} SentReads(sent: seq<Sent>)
    requires Separate(sent)
    ensures QueryParams(WrittenFrom(sent)) == Meant(sent)
  {
    hide QueryParams, PairOf, MeaningOf, TextOf, Writable;
    if sent == [] {
      EmptyQuery();
    } else {
      var piece, gap, rest := TextOf(sent[0].param), sent[0].gap, WrittenFrom(sent[1..]);
      ParamReads(sent[0].param);
      SentReads(sent[1..]);
      MeantFirst(sent);
      if gap > 0 {
        TextFirst(piece, gap, rest);
        FirstParam(piece, Ampersands(gap - 1) + rest);
        LeadingAmpersands(gap - 1, rest);
      } else {
        assert |sent| == 1 && rest == [];
        assert piece + Ampersands(0) + rest == piece;
        FirstParam(piece, []);
      }
    }
  }

  lemma MeantFirst(sent: seq<Sent>)
    requires sent != []
    ensures Meant(sent) == [MeaningOf(sent[0].param)] + Meant(sent[1..])
  {
  }

  /**
   Every parameter a client sends is read, in order, with its decoded name and value:
   a bare name with the empty value, a value up to the next ampersand whatever equals
   signs it holds; leading, doubled and trailing ampersands add nothing.
   */
  lemma QueryReads(lead: nat, sent: seq<Sent>)
    requires Separate(sent)
    ensures QueryParams(Written(lead, sent)) == Meant(sent)
  {
    hide QueryParams, Meant, Separate;
    LeadingAmpersands(lead, WrittenFrom(sent));
    SentReads(sent);
  }

  // ---- every query is written so -----------------------------------------------------------------

  /** A piece between ampersands, as a parameter. */
  lemma PieceIsWritten(piece: Octets) returns (p: Param)
    requires piece != [] && AMPERSAND !in piece
    ensures Writable(p) && TextOf(p) == piece
  {
    var k := FirstOf(piece, EQUALS);
    if k == |piece| {
      p := Bare(piece);
    } else {
      p := Named(piece[..k], piece[k + 1..]);
      assert piece == piece[..k] + [EQUALS] + piece[k + 1..];
    }
  }

  lemma {:induction false} EveryQueryIsWritten(query: Octets) returns (lead: nat, sent: seq<Sent>)
    ensures Separate(sent) && query == Written(lead, sent)
    decreases |query|
  {
    hide TextOf, Writable;
    if query == [] {
      lead, sent := 0, [];
    } else if query[0] == AMPERSAND {
      lead, sent := EveryQueryIsWritten(query[1..]);
      OneMoreAmpersand(query, lead, sent);
      lead := lead + 1;
    } else {
      var k := FirstOf(query, AMPERSAND);
      var p := PieceIsWritten(query[..k]);
      var gap, rest := EveryQueryIsWritten(query[k..]);
      if k < |query| { StartsWithAmpersand(query[k..], gap, rest); }
      PieceInFront(query, k, p, gap, rest);
      lead, sent := 0, [Sent(p, gap)] + rest;
    }
  }

  lemma OneMoreAmpersand(query: Octets, lead: nat, sent: seq<Sent>)
    requires query != [] && query[0] == AMPERSAND && query[1..] == Written(lead, sent)
    ensures query == Written(lead + 1, sent)
  {
    assert query == [AMPERSAND] + query[1..];
    assert [AMPERSAND] + (Ampersands(lead) + WrittenFrom(sent)) == Ampersands(lead + 1) + WrittenFrom(sent);
  }

  /** What starts with an ampersand is written with a leading one. */
  lemma StartsWithAmpersand(query: Octets, lead: nat, sent: seq<Sent>)
    requires Separate(sent) && query == Written(lead, sent)
    requires query != [] && query[0] == AMPERSAND
    ensures lead > 0
  {
    if lead == 0 {
      assert query == WrittenFrom(sent);
      ParamReads(sent[0].param);
    }
  }

  lemma PieceInFront(query: Octets, k: nat, p: Param, gap: nat, rest: seq<Sent>)
    requires k <= |query| && query[..k] == TextOf(p) && Writable(p)
    requires Separate(rest) && query[k..] == Written(gap, rest) && (k < |query| ==> gap > 0)
    ensures Separate([Sent(p, gap)] + rest) && query == Written(0, [Sent(p, gap)] + rest)
  {
    hide TextOf, Writable, Separate, Ampersands, WrittenFrom;
    if rest != [] { NotEmpty(rest); }
    SeparateInFront(p, gap, rest);
    WrittenInFront(p, gap, rest);
    assert query == query[..k] + query[k..];
  }

  lemma SeparateInFront(p: Param, gap: nat, rest: seq<Sent>)
    requires Writable(p) && Separate(rest) && (rest != [] ==> gap > 0)
    ensures Separate([Sent(p, gap)] + rest)
  {
    hide Writable;
  }

  lemma WrittenInFront(p: Param, gap: nat, rest: seq<Sent>)
    ensures Written(0, [Sent(p, gap)] + rest) == TextOf(p) + Written(gap, rest)
  {
    hide TextOf;
    var sent := [Sent(p, gap)] + rest;
    assert sent[0] == Sent(p, gap) && sent[1..] == rest;
    Grouped(TextOf(p), Ampersands(gap), WrittenFrom(rest));
    assert Ampersands(0) == [] && [] + WrittenFrom(sent) == WrittenFrom(sent);
  }

  lemma Grouped(a: Octets, b: Octets, c: Octets)
    ensures (a + b) + c == a + (b + c)
  {
  }

  lemma NotEmpty(rest: seq<Sent>)
    requires Separate(rest) && rest != []
    ensures WrittenFrom(rest) != [] && forall gap: nat :: |Written(gap, rest)| > 0
  {
    ParamReads(rest[0].param);
  }

  // ---- the octets --------------------------------------------------------------------------------

  const LOWER_DIGITS := "0123456789abcdef"
  const UPPER_DIGITS := "0123456789ABCDEF"

  /** A hexadecimal digit stands for its place among the digits, in either case. */
  lemma HexDigitsRead(b: byte, n: byte)
    requires n < 16
    ensures HexDigit(b) == Some(n) <==> (b as char == LOWER_DIGITS[n] || b as char == UPPER_DIGITS[n])
  {
  }

  /** The delimiters are the characters they are named after. */
  lemma DelimitersRead()
    ensures AMPERSAND as char == '&' && EQUALS as char == '=' && PERCENT as char == '%'
    ensures PLUS as char == '+' && SPACE as char == ' '
  {
  }
}
