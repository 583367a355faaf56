/**
 * The two pieces of .NET string handling the name prompt relies on:
 * char.IsWhiteSpace and string.Trim.
 */
module Text {

  /**
   * .NET's char.IsWhiteSpace: the Unicode space, line and paragraph
   * separators, the controls U+0009 to U+000D, and U+0085.
   */
  predicate IsWhiteSpace(c: char)
    ensures c == ' ' || c == '\t' || c == '\n' || c == '\r' ==> IsWhiteSpace(c)
    ensures 'a' <= c <= 'z' || 'A' <= c <= 'Z' || '0' <= c <= '9' ==> !IsWhiteSpace(c)
  {
    var n := c as int;
    (0x09 <= n <= 0x0D) || n == 0x20 || n == 0x85 || n == 0xA0 || n == 0x1680
    || (0x2000 <= n <= 0x200A) || n == 0x2028 || n == 0x2029 || n == 0x202F
    || n == 0x205F || n == 0x3000
  }

  predicate IsBlank(s: string)
  {
    forall i :: 0 <= i < |s| ==> IsWhiteSpace(s[i])
  }

  /** Index of the first character at or after `from` that is not white space, or |s| if there is none. */
  function SkipBlanks(s: string, from: nat): (k: nat)
    requires from <= |s|
    ensures from <= k <= |s|
    ensures forall i :: from <= i < k ==> IsWhiteSpace(s[i])
    ensures k == |s| || !IsWhiteSpace(s[k])
    decreases |s| - from
  {
    if from == |s| || !IsWhiteSpace(s[from]) then from else SkipBlanks(s, from + 1)
  }

  /**
   * Scanning back from `end`, but not below `start`: the end of the text once
   * trailing white space is dropped.
   */
  function SkipBlanksBack(s: string, start: nat, end: nat): (k: nat)
    requires start <= end <= |s|
    ensures start <= k <= end
    ensures forall i :: k <= i < end ==> IsWhiteSpace(s[i])
    ensures k == start || !IsWhiteSpace(s[k - 1])
    decreases end
  {
    if end == start || !IsWhiteSpace(s[end - 1]) then end else SkipBlanksBack(s, start, end - 1)
  }

  /**
   * string.Trim: the leading white space is skipped, then the trailing white
   * space down to it. The result is the input with only white space removed
   * at either end.
   */
  function Trim(s: string): (r: string)
    ensures r == [] || (!IsWhiteSpace(r[0]) && !IsWhiteSpace(r[|r| - 1]))
    ensures exists a, b :: 0 <= a <= b <= |s| && r == s[a..b] && IsBlank(s[..a]) && IsBlank(s[b..])
  {
    var start := SkipBlanks(s, 0);
    var end := SkipBlanksBack(s, start, |s|);
    assert IsBlank(s[..start]) && IsBlank(s[end..]);
    s[start..end]
  }

  /** Trimming leaves nothing exactly when the string was all white space. */
  lemma TrimEmptyIffBlank(s: string)
    ensures Trim(s) == [] <==> IsBlank(s)
  {
    var start := SkipBlanks(s, 0);
    var end := SkipBlanksBack(s, start, |s|);
    if !IsBlank(s) {
      var i :| 0 <= i < |s| && !IsWhiteSpace(s[i]);
      assert start <= i < end;
    }
  }

  /** Trimming a trimmed string changes nothing. */
  lemma TrimIdempotent(s: string)
    ensures Trim(Trim(s)) == Trim(s)
  {
    var t := Trim(s);
    if t != [] {
      assert SkipBlanks(t, 0) == 0;
      assert SkipBlanksBack(t, 0, |t|) == |t|;
    }
  }
}
