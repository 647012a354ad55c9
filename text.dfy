/** JavaScript's String.prototype.trim, as the send guard of the chat page
    uses it: whether the typed input "trims to empty". */
module JsText {

  /** The characters trim removes: the ECMAScript WhiteSpace set (tab,
      vertical tab, form feed, the byte-order mark and every space separator)
      and the LineTerminator set (LF, CR, line and paragraph separator). */
  predicate IsWhitespace(c: char)
  {
    || c == '\t' || c == '\U{000B}' || c == '\U{000C}' || c == ' '
    || c == '\U{00A0}' || c == '\U{1680}' || ('\U{2000}' <= c <= '\U{200A}')
    || c == '\U{202F}' || c == '\U{205F}' || c == '\U{3000}' || c == '\U{FEFF}'
    || c == '\n' || c == '\r' || c == '\U{2028}' || c == '\U{2029}'
  }

  /** Every character of s is whitespace (the empty string included). */
  predicate IsBlank(s: string)
  {
    forall i :: 0 <= i < |s| ==> IsWhitespace(s[i])
  }

  /** Leading whitespace removed: r is a suffix of s, every character before
      it is whitespace, and r does not start with whitespace. */
  function TrimStart(s: string): (r: string)
    ensures |r| <= |s| && r == s[|s| - |r|..]
    ensures forall i :: 0 <= i < |s| - |r| ==> IsWhitespace(s[i])
    ensures r != [] ==> !IsWhitespace(r[0])
  {
    if s != [] && IsWhitespace(s[0]) then TrimStart(s[1..]) else s
  }

  /** Trailing whitespace removed: r is a prefix of s, every character after
      it is whitespace, and r does not end with whitespace. */
  function TrimEnd(s: string): (r: string)
    ensures |r| <= |s| && r == s[..|r|]
    ensures forall i :: |r| <= i < |s| ==> IsWhitespace(s[i])
    ensures r != [] ==> !IsWhitespace(r[|r| - 1])
  {
    if s != [] && IsWhitespace(s[|s| - 1]) then TrimEnd(s[..|s| - 1]) else s
  }

  /** String.prototype.trim: both ends stripped.  The result has no
      whitespace at either end, and it is empty exactly when s is blank, which
      is the send guard's test. */
  function Trim(s: string): (r: string)
    ensures |r| <= |s|
    ensures r != [] ==> !IsWhitespace(r[0]) && !IsWhitespace(r[|r| - 1])
    ensures r == "" <==> IsBlank(s)
  {
    TrimBlankIff(s);
    TrimEnd(TrimStart(s))
  }

  /** The emptiness half of Trim's contract. */
  lemma {:induction false} TrimBlankIff(s: string)
    ensures TrimEnd(TrimStart(s)) == "" <==> IsBlank(s)
  {
  }

  /** r occurs in s at offset k, with only whitespace before and after it. */
  predicate SitsBetweenBlanks(s: string, k: int, r: string)
  {
    && 0 <= k && k + |r| <= |s| && r == s[k..k + |r|]
    && (forall i :: 0 <= i < k ==> IsWhitespace(s[i]))
    && (forall i :: k + |r| <= i < |s| ==> IsWhitespace(s[i]))
  }

  /** Trim removes whitespace at the two ends and nothing else: its result is
      the contiguous slice of s that starts after the leading whitespace, and
      only whitespace follows it. */
  lemma {:induction false} TrimIsSlice(s: string)
    ensures SitsBetweenBlanks(s, |s| - |TrimStart(s)|, Trim(s))
  {
    var t := TrimStart(s);
    var r := TrimEnd(t);
    assert Trim(s) == r;
    SliceBetweenBlanks(s, t, r);
  }

  /** A prefix r of a suffix t of s, where s outside t and t outside r are
      whitespace, sits between blanks in s. */
  lemma {:induction false} SliceBetweenBlanks(s: string, t: string, r: string)
    requires |t| <= |s| && t == s[|s| - |t|..]
    requires forall i :: 0 <= i < |s| - |t| ==> IsWhitespace(s[i])
    requires |r| <= |t| && r == t[..|r|]
    requires forall i :: |r| <= i < |t| ==> IsWhitespace(t[i])
    ensures SitsBetweenBlanks(s, |s| - |t|, r)
  {
    var k := |s| - |t|;
    assert s[k..k + |r|] == t[..|r|];
    forall i | k + |r| <= i < |s| ensures IsWhitespace(s[i]) {
      assert s[i] == t[i - k];
    }
  }
}
