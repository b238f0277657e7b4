/** The two Python string operations the relay relies on: `str.strip()` with no
    argument, and `sep.join(parts)`. Strings are sequences of Unicode code points,
    as they are in Python 3. */
module PyStr {

  /** Python's `str.isspace()` for one character: the code points Unicode classes
      as whitespace (bidirectional class WS, B or S, or category Zs). */
  predicate IsSpace(c: char)
    ensures c == ' ' || c == '\t' || c == '\n' || c == '\r' ==> IsSpace(c)
    ensures IsSpace(c) ==> c == ' ' || c < ' ' || '\U{85}' <= c <= '\U{3000}'
  {
    ('\U{09}' <= c <= '\U{0D}') || ('\U{1C}' <= c <= '\U{1F}') || c == ' '
    || c == '\U{85}' || c == '\U{A0}' || c == '\U{1680}'
    || ('\U{2000}' <= c <= '\U{200A}') || c == '\U{2028}' || c == '\U{2029}'
    || c == '\U{202F}' || c == '\U{205F}' || c == '\U{3000}'
  }

  /** True when `s` neither starts nor ends with whitespace. */
  predicate Trimmed(s: string) {
    s == [] || (!IsSpace(s[0]) && !IsSpace(s[|s| - 1]))
  }

  /** How many whitespace characters `s` starts with. */
  function LeadingSpaces(s: string): (n: nat)
    ensures n <= |s|
    ensures forall i :: 0 <= i < n ==> IsSpace(s[i])
    ensures n < |s| ==> !IsSpace(s[n])
  {
    if s != [] && IsSpace(s[0]) then 1 + LeadingSpaces(s[1..]) else 0
  }

  /** How many whitespace characters `s` ends with. */
  function TrailingSpaces(s: string): (n: nat)
    ensures n <= |s|
    ensures forall i :: |s| - n <= i < |s| ==> IsSpace(s[i])
    ensures n < |s| ==> !IsSpace(s[|s| - n - 1])
  {
    if s != [] && IsSpace(s[|s| - 1]) then 1 + TrailingSpaces(s[..|s| - 1]) else 0
  }

  /** `s.strip()`: `s` without its leading and trailing whitespace. The result is
      a slice of `s` that neither starts nor ends with whitespace, and everything
      cut off on either side of it is whitespace. */
  function Strip(s: string): (r: string)
    ensures Trimmed(r)
    ensures var lo := LeadingSpaces(s);
      lo + |r| <= |s| && r == s[lo..lo + |r|]
      && (forall i :: 0 <= i < lo ==> IsSpace(s[i]))
      && (forall i :: lo + |r| <= i < |s| ==> IsSpace(s[i]))
  {
    var lo := LeadingSpaces(s);
    if lo == |s| then "" else s[lo..|s| - TrailingSpaces(s)]
  }

  /** `s.strip()` is empty exactly when `s` is nothing but whitespace. */
  lemma StripEmpty(s: string)
    ensures Strip(s) == [] <==> forall i :: 0 <= i < |s| ==> IsSpace(s[i])
  {
    var r, lo := Strip(s), LeadingSpaces(s);
    if r != [] {
      assert r[0] == s[lo];
    }
  }

  /** Stripping changes nothing exactly when there is no whitespace at either end;
      in particular a second strip is a no-op. */
  lemma {:induction false} StripFixpoint(s: string)
    ensures Strip(s) == s <==> Trimmed(s)
    ensures Strip(Strip(s)) == Strip(s)
  {
    if Trimmed(s) && s != [] {
      assert LeadingSpaces(s) == 0;
      assert TrailingSpaces(s) == 0;
    }
    var r := Strip(s);
    if r != [] {
      assert LeadingSpaces(r) == 0;
      assert TrailingSpaces(r) == 0;
    }
  }

  /** Total length of a list of strings. */
  function SumLengths(parts: seq<string>): nat {
    if parts == [] then 0 else |parts[0]| + SumLengths(parts[1..])
  }

  /** `sep.join(parts)`: the parts in order with one `sep` between neighbours and
      none at either end; the empty list joins to the empty string. */
  function Join(sep: string, parts: seq<string>): (r: string)
    ensures parts == [] ==> r == ""
    ensures parts != [] ==> |r| == SumLengths(parts) + (|parts| - 1) * |sep|
  {
    if parts == [] then ""
    else if |parts| == 1 then parts[0]
    else parts[0] + sep + Join(sep, parts[1..])
  }

  /** Where `parts[i]` begins inside `Join(sep, parts)`: after every earlier part
      and one separator per earlier part. */
  function PartStart(sep: string, parts: seq<string>, i: nat): nat
    requires i <= |parts|
  {
    if i == 0 then 0 else |parts[0]| + |sep| + PartStart(sep, parts[1..], i - 1)
  }

  lemma SliceOfConcat(x: string, y: string, lo: nat, hi: nat)
    requires lo <= hi <= |y|
    ensures (x + y)[|x| + lo..|x| + hi] == y[lo..hi]
  {
  }

  /** Every part appears in the joined string, whole, at its own offset. */
  lemma {:induction false} JoinAt(sep: string, parts: seq<string>, i: nat)
    requires i < |parts|
    ensures PartStart(sep, parts, i) + |parts[i]| <= |Join(sep, parts)|
    ensures Join(sep, parts)[PartStart(sep, parts, i)..PartStart(sep, parts, i) + |parts[i]|] == parts[i]
  {
    if i > 0 {
      var x := parts[0] + sep;
      var tail := Join(sep, parts[1..]);
      assert Join(sep, parts) == x + tail;
      JoinAt(sep, parts[1..], i - 1);
      var lo := PartStart(sep, parts[1..], i - 1);
      SliceOfConcat(x, tail, lo, lo + |parts[i]|);
    }
  }

  /** Between two neighbouring parts of the joined string stands exactly one
      separator; with JoinAt this says the parts come out once each, in their
      original order. */
  lemma {:induction false} JoinGap(sep: string, parts: seq<string>, i: nat)
    requires i + 1 < |parts|
    ensures PartStart(sep, parts, i + 1) == PartStart(sep, parts, i) + |parts[i]| + |sep|
    ensures PartStart(sep, parts, i + 1) <= |Join(sep, parts)|
    ensures Join(sep, parts)[PartStart(sep, parts, i) + |parts[i]|..PartStart(sep, parts, i + 1)] == sep
  {
    var x := parts[0] + sep;
    var tail := Join(sep, parts[1..]);
    assert Join(sep, parts) == x + tail;
    if i > 0 {
      JoinGap(sep, parts[1..], i - 1);
      var lo := PartStart(sep, parts[1..], i - 1) + |parts[i]|;
      SliceOfConcat(x, tail, lo, lo + |sep|);
    }
  }
}
