/**
 * Kotlin's `String.trim()` and the whitespace test it uses, enough to decide
 * `text.trim().isEmpty()`.
 */
module Strings {

  /**
   * Kotlin/JVM `Char.isWhitespace()`: `Character.isWhitespace(c) || Character.isSpaceChar(c)`,
   * i.e. the ASCII controls TAB..CR and FS..US and the Unicode space, line and paragraph
   * separators.
   */
  predicate IsWhitespace(c: char) {
    || c == ' '
    || '\t' <= c <= '\r'
    || '\U{1C}' <= c <= '\U{1F}'
    || c == '\U{A0}'
    || c == '\U{1680}'
    || '\U{2000}' <= c <= '\U{200A}'
    || c == '\U{2028}'
    || c == '\U{2029}'
    || c == '\U{202F}'
    || c == '\U{205F}'
    || c == '\U{3000}'
  }

  ghost predicate AllWhitespace(s: string) {
    forall i :: 0 <= i < |s| ==> IsWhitespace(s[i])
  }

  /** Length of the longest all-whitespace prefix of `s`. */
  function LeadingWhitespace(s: string): (k: nat)
    ensures k <= |s|
    ensures AllWhitespace(s[..k])
    ensures k < |s| ==> !IsWhitespace(s[k])
  {
    if s == [] || !IsWhitespace(s[0]) then 0
    else
      var k' := LeadingWhitespace(s[1..]);
      assert s[..1 + k'] == [s[0]] + s[1..][..k'];
      1 + k'
  }

  /** Length of the longest all-whitespace suffix of `s`. */
  function TrailingWhitespace(s: string): (k: nat)
    ensures k <= |s|
    ensures AllWhitespace(s[|s| - k..])
    ensures k < |s| ==> !IsWhitespace(s[|s| - 1 - k])
  {
    if s == [] || !IsWhitespace(s[|s| - 1]) then 0
    else
      var init := s[..|s| - 1];
      var k' := TrailingWhitespace(init);
      assert s[|s| - (1 + k')..] == init[|init| - k'..] + [s[|s| - 1]];
      1 + k'
  }

  /**
   * `s.trim()`: `s` without its leading and trailing whitespace. The result is a
   * contiguous slice of `s` and only whitespace lies before and after it; it is empty
   * exactly when `s` is all whitespace, and otherwise it starts and ends with a
   * non-whitespace character.
   */
  function Trim(s: string): (r: string)
    ensures exists i, j :: 0 <= i <= j <= |s| && r == s[i..j] && AllWhitespace(s[..i]) && AllWhitespace(s[j..])
    ensures r == [] <==> AllWhitespace(s)
    ensures r != [] ==> !IsWhitespace(r[0]) && !IsWhitespace(r[|r| - 1])
  {
    var a := LeadingWhitespace(s);
    var rest := s[a..];
    var b := TrailingWhitespace(rest);
    var r := rest[..|rest| - b];
    assert r == s[a..|s| - b];
    assert s[|s| - b..] == rest[|rest| - b..];
    if a == |s| then
      assert s[..a] == s;
      r
    else
      assert rest[0] == s[a];
      assert !IsWhitespace(s[a]);
      r
  }

  /** `s.trim().isEmpty()`. */
  predicate IsBlank(s: string): (blank: bool)
    ensures blank <==> AllWhitespace(s)
  {
    Trim(s) == []
  }

}
