/**
 Query decoding of `src/service.rs`: `decode_query_component` and the pair
 splitter of `scan_views`, against the form-urlencoded format of the WHATWG URL
 Standard (sections 5.1 and 5.2) and percent-encoding of RFC 3986 section 2.1.
 */
module Query {
  import opened Octets
  import opened Sequences
  import opened Wrappers

  const AMPERSAND: byte := 0x26
  const ASTERISK: byte := 0x2A
  const PLUS: byte := 0x2B
  const SPACE: byte := 0x20
  const PERCENT: byte := 0x25
  const EQUALS: byte := 0x3D

  /** Value of one hexadecimal digit, either case. */
  function HexDigit(b: byte): (r: Option<byte>)
    ensures r.Some? ==> r.value < 16
  {
    if 0x30 <= b <= 0x39 then Some(b - 0x30)
    else if 0x41 <= b <= 0x46 then Some(b - 0x37)
    else if 0x61 <= b <= 0x66 then Some(b - 0x57)
    else None
  }

  predicate IsHex(b: byte) { HexDigit(b).Some? }

  /**
   `u8::from_str_radix` over two octets in base 16. It takes two hexadecimal
   digits, and also a leading plus sign followed by one digit.
   */
  function FromStrRadix16(hi: byte, lo: byte): Option<byte>
  {
    if IsHex(hi) && IsHex(lo) then Some(16 * HexDigit(hi).value + HexDigit(lo).value)
    else if hi == PLUS && IsHex(lo) then HexDigit(lo)
    else None
  }

  function PlusToSpace(s: Octets): (r: Octets)
    ensures |r| == |s|
    ensures forall k :: 0 <= k < |s| ==> r[k] == if s[k] == PLUS then SPACE else s[k]
  {
    if s == [] then [] else [if s[0] == PLUS then SPACE else s[0]] + PlusToSpace(s[1..])
  }

  /** An escape starts at `k`: a percent sign and two hexadecimal digits. */
  predicate EscapeAt(s: Octets, k: nat)
  {
    k + 2 < |s| && s[k] == PERCENT && IsHex(s[k + 1]) && IsHex(s[k + 2])
  }

  function EscapedOctet(s: Octets, k: nat): byte
    requires EscapeAt(s, k)
  {
    16 * HexDigit(s[k + 1]).value + HexDigit(s[k + 2]).value
  }

  /** Strict percent-decoding: only two-digit escapes decode, everything else stays. */
  function PercentDecode(s: Octets): Octets
  {
    if s == [] then []
    else if EscapeAt(s, 0) then [EscapedOctet(s, 0)] + PercentDecode(s[3..])
    else [s[0]] + PercentDecode(s[1..])
  }

  /** The component decoder: plus signs become spaces first, then escapes decode. */
  function Decode(component: Octets): Octets
  {
    PercentDecode(PlusToSpace(component))
  }

  /** Where no plus sign is left, the parser reads exactly the strict two-digit escapes. */
  lemma PlusArmIsUnreachable(s: Octets, k: nat)
    requires PLUS !in s && k + 2 < |s| && s[k] == PERCENT
    ensures FromStrRadix16(s[k + 1], s[k + 2]) == if EscapeAt(s, k) then Some(EscapedOctet(s, k)) else None
  {
    assert s[k + 1] in s;
  }

  /** One round of the loop: what is left to decode at a position. */
  lemma DecodeStep(s: Octets, k: nat)
    requires k < |s|
    ensures PercentDecode(s[k..]) ==
            if EscapeAt(s, k) then [EscapedOctet(s, k)] + PercentDecode(s[k + 3..])
            else [s[k]] + PercentDecode(s[k + 1..])
  {
    assert EscapeAt(s[k..], 0) == EscapeAt(s, k);
    assert s[k..][1..] == s[k + 1..];
    if EscapeAt(s, k) {
      assert s[k..][3..] == s[k + 3..];
      assert EscapedOctet(s[k..], 0) == EscapedOctet(s, k);
    }
  }

  lemma NoEscapeHere(s: Octets, k: nat)
    requires k < |s| && (s[k] != PERCENT || k + 2 >= |s|)
    ensures !EscapeAt(s, k)
  {
  }

  lemma Associates(a: Octets, b: Octets, c: Octets)
    ensures (a + b) + c == a + (b + c)
  {
  }

  lemma NothingLeft(s: Octets)
    ensures PercentDecode(s[|s|..]) == []
  {
    assert s[|s|..] == [];
  }

  /** The decoding loop, written over the parser the source calls. */
  method DecodeQueryComponent(component: Octets) returns (out: Octets)
    ensures out == Decode(component)
  {
    hide FromStrRadix16, EscapeAt, EscapedOctet, PercentDecode;
    var bytes := PlusToSpace(component);
    out := [];
    var index := 0;
    assert bytes[0..] == bytes;
    while index < |bytes|
      invariant 0 <= index <= |bytes|
      invariant out + PercentDecode(bytes[index..]) == PercentDecode(bytes)
    {
      var parsed: Option<byte> := None;
      if bytes[index] == PERCENT && index + 2 < |bytes| {
        parsed := FromStrRadix16(bytes[index + 1], bytes[index + 2]);
        PlusArmIsUnreachable(bytes, index);
      } else {
        NoEscapeHere(bytes, index);
      }
      DecodeStep(bytes, index);
      ghost var before := out;
      if parsed.Some? {
        Associates(before, [parsed.value], PercentDecode(bytes[index + 3..]));
        out := out + [parsed.value];
        index := index + 3;
      } else {
        Associates(before, [bytes[index]], PercentDecode(bytes[index + 1..]));
        out := out + [bytes[index]];
        index := index + 1;
      }
    }
    NothingLeft(bytes);
  }

  /** How many escapes start at or after position `i`. */
  function EscapesFrom(s: Octets, i: nat): nat
    requires i <= |s|
    decreases |s| - i
  {
    if i == |s| then 0 else (if EscapeAt(s, i) then 1 else 0) + EscapesFrom(s, i + 1)
  }

  function Escapes(s: Octets): nat
  {
    EscapesFrom(s, 0)
  }

  lemma {:induction false} EscapesOfSuffix(a: Octets, b: Octets, i: nat)
    requires i <= |b|
    ensures EscapesFrom(a + b, |a| + i) == EscapesFrom(b, i)
    decreases |b| - i
  {
    if i < |b| {
      assert EscapeAt(a + b, |a| + i) == EscapeAt(b, i);
      EscapesOfSuffix(a, b, i + 1);
    }
  }

  lemma EscapesAfter(s: Octets, n: nat)
    requires n <= |s|
    ensures EscapesFrom(s, n) == Escapes(s[n..])
  {
    EscapesOfSuffix(s[..n], s[n..], 0);
    assert s[..n] + s[n..] == s;
  }

  /** Each decoded escape shortens the output by two octets, nothing else changes its length. */
  lemma {:induction false} PercentDecodeLength(s: Octets)
    ensures |PercentDecode(s)| + 2 * Escapes(s) == |s|
  {
    if s == [] {
    } else if EscapeAt(s, 0) {
      assert !EscapeAt(s, 1) && !EscapeAt(s, 2) by { assert !IsHex(PERCENT); }
      assert EscapesFrom(s, 1) == EscapesFrom(s, 2) == EscapesFrom(s, 3);
      EscapesAfter(s, 3);
      PercentDecodeLength(s[3..]);
    } else {
      EscapesAfter(s, 1);
      PercentDecodeLength(s[1..]);
    }
  }

  lemma DecodeLength(component: Octets)
    ensures |Decode(component)| == |component| - 2 * Escapes(PlusToSpace(component))
  {
    PercentDecodeLength(PlusToSpace(component));
  }

  /** Some escape of `a + b` starts in `a` and ends in `b`. */
  ghost predicate Straddles(a: Octets, b: Octets)
  {
    exists k: nat :: k < |a| < k + 3 && EscapeAt(a + b, k)
  }

  lemma {:induction false} PercentDecodeSplits(a: Octets, b: Octets)
    requires !Straddles(a, b)
    ensures PercentDecode(a + b) == PercentDecode(a) + PercentDecode(b)
  {
    if a == [] {
      assert a + b == b;
    } else {
      var n := if EscapeAt(a + b, 0) then 3 else 1;
      assert EscapeAt(a + b, 0) == EscapeAt(a, 0);
      assert (a + b)[n..] == a[n..] + b;
      if Straddles(a[n..], b) {
        var k: nat :| k < |a[n..]| < k + 3 && EscapeAt(a[n..] + b, k);
        assert EscapeAt(a + b, k + n);
        assert false;
      }
      PercentDecodeSplits(a[n..], b);
    }
  }

  ghost predicate StraddlesFrom(a: Octets, b: Octets, i: nat)
  {
    exists k: nat :: i <= k < |a| < k + 3 && EscapeAt(a + b, k)
  }

  /** The escapes of a concatenation: those of the parts, plus one if an escape straddles the cut. */
  lemma {:induction false} EscapesOfConcatenation(a: Octets, b: Octets, i: nat)
    requires i <= |a|
    ensures EscapesFrom(a + b, i) ==
            EscapesFrom(a, i) + Escapes(b) + if StraddlesFrom(a, b, i) then 1 else 0
    decreases |a| - i
  {
    if i == |a| {
      EscapesOfSuffix(a, b, 0);
    } else {
      EscapesOfConcatenation(a, b, i + 1);
      if EscapeAt(a + b, i) && |a| < i + 3 {
        assert StraddlesFrom(a, b, i);
        forall k: nat | i < k < |a| ensures !EscapeAt(a + b, k) {
          if EscapeAt(a + b, k) { EscapesDoNotOverlap(a + b, i, k); }
        }
        assert !StraddlesFrom(a, b, i + 1);
      } else {
        assert EscapeAt(a + b, i) == EscapeAt(a, i);
        assert StraddlesFrom(a, b, i) == StraddlesFrom(a, b, i + 1);
      }
    }
  }

  lemma EscapesDoNotOverlap(s: Octets, j: nat, k: nat)
    requires EscapeAt(s, j) && EscapeAt(s, k)
    ensures j == k || j + 3 <= k || k + 3 <= j
  {
    assert !IsHex(PERCENT);
    assert s[j + 1] != PERCENT && s[j + 2] != PERCENT && s[k + 1] != PERCENT && s[k + 2] != PERCENT;
  }

  lemma PlusToSpaceSplits(a: Octets, b: Octets)
    ensures PlusToSpace(a + b) == PlusToSpace(a) + PlusToSpace(b)
  {
  }

  /**
   Decoding distributes over a cut exactly when no escape straddles it. An
   ampersand or an equals sign is neither a percent sign nor a digit, so the
   splitter may cut there before it decodes (`DelimitersCutCleanly`).
   */
  lemma DecodeDistributes(a: Octets, b: Octets)
    ensures Decode(a + b) == Decode(a) + Decode(b)
            <==> !Straddles(PlusToSpace(a), PlusToSpace(b))
  {
    PlusToSpaceSplits(a, b);
    var a', b' := PlusToSpace(a), PlusToSpace(b);
    if Straddles(a', b') {
      EscapesOfConcatenation(a', b', 0);
      PercentDecodeLength(a');
      PercentDecodeLength(b');
      PercentDecodeLength(a' + b');
    } else {
      PercentDecodeSplits(a', b');
    }
  }

  lemma SingleDecodes(b: byte)
    requires b != PLUS
    ensures Decode([b]) == [b]
  {
    assert PlusToSpace([b]) == [b];
    assert [b][1..] == [];
    assert PercentDecode([b]) == [b] + PercentDecode([]);
  }

  lemma DelimitersCutCleanly(a: Octets, d: byte, b: Octets)
    requires d == AMPERSAND || d == EQUALS
    ensures Decode(a + [d] + b) == Decode(a) + [d] + Decode(b)
  {
    assert !IsHex(d) && !IsHex(PlusToSpace([d])[0]);
    assert !Straddles(PlusToSpace(a), PlusToSpace([d]));
    DecodeDistributes(a, [d]);
    PlusToSpaceSplits(a, [d]);
    assert PlusToSpace(a + [d])[|a|] == d;
    forall k: nat | k < |a| + 1 < k + 3
      ensures !EscapeAt(PlusToSpace(a + [d]) + PlusToSpace(b), k)
    {
      assert (PlusToSpace(a + [d]) + PlusToSpace(b))[|a|] == d;
    }
    DecodeDistributes(a + [d], b);
    SingleDecodes(d);
  }

  // ---- the pair splitter -------------------------------------------------

  /** `str::split`: the pieces between the delimiters, at least one. */
  function Split(s: Octets, d: byte): (r: seq<Octets>)
    ensures |r| >= 1
    decreases |s|
  {
    var k := FirstOf(s, d);
    if k == |s| then [s] else [s[..k]] + Split(s[k + 1..], d)
  }

  function NonEmpty(pieces: seq<Octets>): seq<Octets>
  {
    if pieces == [] then []
    else if pieces[0] == [] then NonEmpty(pieces[1..])
    else [pieces[0]] + NonEmpty(pieces[1..])
  }

  /** `split_once('=')`, both halves decoded; a piece without one is a bare name. */
  function PairOf(piece: Octets): (Octets, Octets)
  {
    var k := FirstOf(piece, EQUALS);
    if k == |piece| then (Decode(piece), [])
    else (Decode(piece[..k]), Decode(piece[k + 1..]))
  }

  function PairsOf(pieces: seq<Octets>): (r: seq<(Octets, Octets)>)
    ensures |r| == |pieces|
  {
    if pieces == [] then [] else [PairOf(pieces[0])] + PairsOf(pieces[1..])
  }

  /** The query parameters the scan reads. */
  function QueryParams(query: Octets): seq<(Octets, Octets)>
  {
    PairsOf(NonEmpty(Split(query, AMPERSAND)))
  }

  // ---- the form-urlencoded serializer (WHATWG URL Standard, section 5.2) ----

  predicate IsAlphanumeric(b: byte)
  {
    0x30 <= b <= 0x39 || 0x41 <= b <= 0x5A || 0x61 <= b <= 0x7A
  }

  /** The octets that stand for themselves: alphanumerics and `*`, `-`, `.`, `_`. */
  predicate IsPlain(b: byte)
  {
    IsAlphanumeric(b) || b in {ASTERISK, 0x2D, 0x2E, 0x5F}
  }

  function UpperHex(n: byte): byte
    requires n < 16
  {
    if n < 10 then 0x30 + n else 0x37 + n
  }

  function EncodeOctet(b: byte): Octets
  {
    if b == SPACE then [PLUS]
    else if IsPlain(b) then [b]
    else [PERCENT, UpperHex(b / 16), UpperHex(b % 16)]
  }

  function Encode(s: Octets): Octets
  {
    if s == [] then [] else EncodeOctet(s[0]) + Encode(s[1..])
  }

  function EncodePair(pair: (Octets, Octets)): Octets
  {
    Encode(pair.0) + [EQUALS] + Encode(pair.1)
  }

  function Serialize(pairs: seq<(Octets, Octets)>): Octets
  {
    if pairs == [] then []
    else if |pairs| == 1 then EncodePair(pairs[0])
    else EncodePair(pairs[0]) + [AMPERSAND] + Serialize(pairs[1..])
  }

  lemma OctetRoundTrip(b: byte)
    ensures Decode(EncodeOctet(b)) == [b]
    ensures forall k :: 0 <= k < |EncodeOctet(b)| ==> EncodeOctet(b)[k] !in {AMPERSAND, EQUALS}
  {
    var e := EncodeOctet(b);
    if !IsPlain(b) && b != SPACE {
      assert HexDigit(UpperHex(b / 16)) == Some(b / 16);
      assert HexDigit(UpperHex(b % 16)) == Some(b % 16);
      assert PlusToSpace(e) == e;
      assert EscapeAt(e, 0) && EscapedOctet(e, 0) == b;
      assert e[3..] == [];
      assert PercentDecode(e) == [b] + PercentDecode([]);
    } else {
      var p := PlusToSpace(e);
      assert p == [b] && p[1..] == [];
      assert PercentDecode(p) == [b] + PercentDecode([]);
    }
  }

  /** An encoded octet never joins the next one in an escape. */
  lemma EncodedOctetIsClosed(b: byte, rest: Octets)
    ensures !Straddles(PlusToSpace(EncodeOctet(b)), rest)
  {
    var p := PlusToSpace(EncodeOctet(b));
    if !IsPlain(b) && b != SPACE {
      assert p[1] != PERCENT && p[2] != PERCENT;
      forall k: nat | k < |p| < k + 3 ensures !EscapeAt(p + rest, k) {
        assert k == 1 || k == 2;
      }
    } else {
      assert p[0] != PERCENT;
    }
  }

  lemma {:induction false} ComponentRoundTrip(s: Octets)
    ensures Decode(Encode(s)) == s
  {
    if s != [] {
      var e, rest := EncodeOctet(s[0]), Encode(s[1..]);
      OctetRoundTrip(s[0]);
      EncodedOctetIsClosed(s[0], PlusToSpace(rest));
      DecodeDistributes(e, rest);
      ComponentRoundTrip(s[1..]);
    }
  }

  lemma {:induction false} EncodedHasNoDelimiter(s: Octets)
    ensures AMPERSAND !in Encode(s) && EQUALS !in Encode(s)
  {
    if s != [] {
      OctetRoundTrip(s[0]);
      EncodedHasNoDelimiter(s[1..]);
    }
  }

  lemma PairRoundTrip(pair: (Octets, Octets))
    ensures PairOf(EncodePair(pair)) == pair
    ensures AMPERSAND !in EncodePair(pair) && EncodePair(pair) != []
  {
    var a, b := Encode(pair.0), Encode(pair.1);
    var e := a + [EQUALS] + b;
    EncodedHasNoDelimiter(pair.0);
    EncodedHasNoDelimiter(pair.1);
    FirstOfConcatenation(a, EQUALS, b);
    assert e[..|a|] == a && e[|a| + 1..] == b;
    ComponentRoundTrip(pair.0);
    ComponentRoundTrip(pair.1);
  }

  /** A text without the delimiter is one piece. */
  lemma SplitWhole(s: Octets, d: byte)
    requires d !in s
    ensures Split(s, d) == [s]
  {
    FirstOfAbsent(s, d);
  }

  /** The first piece ends at the first delimiter. */
  lemma SplitFirst(a: Octets, d: byte, b: Octets)
    requires d !in a
    ensures Split(a + [d] + b, d) == [a] + Split(b, d)
  {
    FirstOfConcatenation(a, d, b);
    var s := a + [d] + b;
    assert s[..|a|] == a && s[|a| + 1..] == b;
  }

  /** The first pair of a query and the rest of it. */
  lemma FirstParam(piece: Octets, rest: Octets)
    requires AMPERSAND !in piece && piece != []
    ensures QueryParams(piece + [AMPERSAND] + rest) == [PairOf(piece)] + QueryParams(rest)
    ensures QueryParams(piece) == [PairOf(piece)]
  {
    hide Split, PairOf;
    SplitFirst(piece, AMPERSAND, rest);
    SplitWhole(piece, AMPERSAND);
    assert ([piece] + Split(rest, AMPERSAND))[1..] == Split(rest, AMPERSAND);
    assert NonEmpty([piece]) == [piece] + NonEmpty([]);
  }

  /**
   The query round trip: splitting and decoding a serialized list returns the
   list, in order, with its empty names and values and its duplicates.
   */
  lemma {:induction false} QueryRoundTrip(pairs: seq<(Octets, Octets)>)
    ensures QueryParams(Serialize(pairs)) == pairs
  {
    hide QueryParams, PairOf, EncodePair;
    if pairs == [] {
      EmptyQuery();
    } else {
      var first := EncodePair(pairs[0]);
      PairRoundTrip(pairs[0]);
      FirstParam(first, Serialize(pairs[1..]));
      if |pairs| == 1 {
        assert pairs == [pairs[0]];
      } else {
        QueryRoundTrip(pairs[1..]);
      }
    }
  }

  lemma EmptyQuery()
    ensures QueryParams([]) == []
  {
    SplitWhole([], AMPERSAND);
    var pieces: seq<Octets> := [[]];
    assert pieces[1..] == [];
  }
}
