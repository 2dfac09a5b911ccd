/** The part of Go's `strings` and `unicode` packages that validation uses:
    `unicode.IsSpace` and `strings.TrimSpace`, over decoded characters. */
module Strings {

  /** `unicode.IsSpace`: the Latin-1 spaces '\t', '\n', '\v', '\f', '\r',
      ' ', U+0085 and U+00A0, and the characters of Unicode's White_Space
      property above Latin-1. */
  predicate IsSpace(c: char) {
    || c == '\t' || c == '\n' || c == '\U{0B}' || c == '\U{0C}' || c == '\r' || c == ' '
    || c == '\U{85}' || c == '\U{A0}'
    || c == '\U{1680}' || ('\U{2000}' <= c <= '\U{200A}')
    || c == '\U{2028}' || c == '\U{2029}' || c == '\U{202F}' || c == '\U{205F}' || c == '\U{3000}'
  }

  /** Every character of s is white space (the empty string included). */
  predicate Blank(s: string) {
    forall i :: 0 <= i < |s| ==> IsSpace(s[i])
  }

  /** The length of the longest all-space prefix of s. */
  function LeadingSpaces(s: string): (k: nat)
    ensures k <= |s|
    ensures forall i :: 0 <= i < k ==> IsSpace(s[i])
    ensures k < |s| ==> !IsSpace(s[k])
  {
    if s != [] && IsSpace(s[0]) then 1 + LeadingSpaces(s[1..]) else 0
  }

  /** The length of the longest all-space suffix of s. */
  function TrailingSpaces(s: string): (k: nat)
    ensures k <= |s|
    ensures forall i :: |s| - k <= i < |s| ==> IsSpace(s[i])
    ensures k < |s| ==> !IsSpace(s[|s| - 1 - k])
  {
    if s != [] && IsSpace(s[|s| - 1]) then 1 + TrailingSpaces(s[..|s| - 1]) else 0
  }

  /** `strings.TrimSpace`: s without its leading and trailing white space.
      The result is empty exactly when s is blank, and otherwise neither
      starts nor ends with a space. */
  function TrimSpace(s: string): (r: string)
    ensures |r| == 0 <==> Blank(s)
    ensures r != [] ==> !IsSpace(r[0]) && !IsSpace(r[|r| - 1])
  {
    var t := s[LeadingSpaces(s)..];
    t[..|t| - TrailingSpaces(t)]
  }

  /** What TrimSpace keeps is one run of s, starting after the leading
      spaces, and everything it cuts off on either side is white space. */
  lemma TrimSpaceCutsOnlySpace(s: string)
    ensures var r, lo := TrimSpace(s), LeadingSpaces(s);
      && lo + |r| <= |s|
      && (forall i :: 0 <= i < |r| ==> r[i] == s[lo + i])
      && (forall i :: 0 <= i < lo ==> IsSpace(s[i]))
      && (forall i :: lo + |r| <= i < |s| ==> IsSpace(s[i]))
  {
    var lo := LeadingSpaces(s);
    var t := s[lo..];
    var k := TrailingSpaces(t);
    assert TrimSpace(s) == t[..|t| - k];
    forall i | lo + (|t| - k) <= i < |s| ensures IsSpace(s[i]) {
      assert s[i] == t[i - lo];
    }
  }
}
