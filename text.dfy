/** Strings as the source treats them: `String.prototype.trim` and the
    truthiness test `!s.trim()`. */
module Text {

  /** The code points ECMAScript's `trim` strips: WhiteSpace (TAB, VT, FF,
      ZWNBSP and every space separator) and LineTerminator (LF, CR, LS, PS). */
  predicate IsWs(c: char) {
    || c == '\t' || c == '\n' || c == '\U{000B}' || c == '\U{000C}' || c == '\r'
    || c == ' ' || c == '\U{00A0}' || c == '\U{1680}'
    || ('\U{2000}' <= c <= '\U{200A}')
    || c == '\U{2028}' || c == '\U{2029}' || c == '\U{202F}' || c == '\U{205F}'
    || c == '\U{3000}' || c == '\U{FEFF}'
  }

  /** Every character is whitespace; `s.trim()` is then the falsy "". */
  predicate Blank(s: string) {
    forall i :: 0 <= i < |s| ==> IsWs(s[i])
  }

  /** The number of whitespace characters `s` starts with. */
  function LeadingWs(s: string): (n: nat)
    ensures n <= |s|
    ensures forall i :: 0 <= i < n ==> IsWs(s[i])
    ensures n < |s| ==> !IsWs(s[n])
  {
    if |s| > 0 && IsWs(s[0]) then
      var n := LeadingWs(s[1..]);
      assert forall i :: 1 <= i < n + 1 ==> s[i] == s[1..][i - 1];
      n + 1
    else 0
  }

  /** The number of whitespace characters `s` ends with. */
  function TrailingWs(s: string): (n: nat)
    ensures n <= |s|
    ensures forall i :: |s| - n <= i < |s| ==> IsWs(s[i])
    ensures n < |s| ==> !IsWs(s[|s| - 1 - n])
  {
    if |s| > 0 && IsWs(s[|s| - 1]) then
      var n := TrailingWs(s[..|s| - 1]);
      assert forall i :: |s| - 1 - n <= i < |s| - 1 ==> s[i] == s[..|s| - 1][i];
      n + 1
    else 0
  }

  /** `s.trim()`: the longest infix of `s` that neither starts nor ends with
      whitespace, left after dropping a blank prefix and a blank suffix. */
  function Trim(s: string): (r: string)
    ensures |r| <= |s|
    ensures var k := LeadingWs(s);
      k + |r| <= |s| && r == s[k..k + |r|] && Blank(s[..k]) && Blank(s[k + |r|..])
    ensures r == [] <==> Blank(s)
    ensures r != [] ==> !IsWs(r[0]) && !IsWs(r[|r| - 1])
  {
    var k := LeadingWs(s);
    if k == |s| then
      assert forall i :: 0 <= i < |s| ==> s[..k][i] == s[i];
      []
    else
      var m := TrailingWs(s);
      assert k < |s| - m;
      var r := s[k..|s| - m];
      assert Blank(s[..k]) by {
        assert forall i :: 0 <= i < k ==> s[..k][i] == s[i];
      }
      assert Blank(s[k + |r|..]) by {
        var tail := s[k + |r|..];
        assert forall i :: 0 <= i < |tail| ==> tail[i] == s[k + |r| + i];
      }
      r
  }

  /** A string that neither starts nor ends with whitespace is its own trim. */
  lemma {:induction false} TrimUnchanged(s: string)
    requires s != [] ==> !IsWs(s[0]) && !IsWs(s[|s| - 1])
    ensures Trim(s) == s
  {
    if s != [] {
      assert LeadingWs(s) == 0;
      assert TrailingWs(s) == 0;
    }
  }
}
