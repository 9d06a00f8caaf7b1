/** What the text readers share: searching for the first delimiter, and decimal digits. */
module Sequences {

  predicate IsDigit(c: char) { '0' <= c <= '9' }

  /** The first position of `d`, or the length of the sequence. */
  function FirstOf<T(==)>(s: seq<T>, d: T): (k: nat)
    ensures k <= |s|
    ensures forall j :: 0 <= j < k ==> s[j] != d
    ensures k < |s| ==> s[k] == d
  {
    if s == [] || s[0] == d then 0 else 1 + FirstOf(s[1..], d)
  }

  lemma {:induction false} FirstOfAbsent<T>(s: seq<T>, d: T)
    requires d !in s
    ensures FirstOf(s, d) == |s|
  {
    if s != [] { FirstOfAbsent(s[1..], d); }
  }

  lemma FirstOfConcatenation<T>(a: seq<T>, d: T, b: seq<T>)
    requires d !in a
    ensures FirstOf(a + [d] + b, d) == |a|
  {
    var s := a + [d] + b;
    assert s[|a|] == d;
    assert forall j :: 0 <= j < |a| ==> s[j] == a[j];
    assert FirstOf(s, d) >= |a|;
  }
}
