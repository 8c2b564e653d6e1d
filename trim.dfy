/**
 * `String.prototype.trim` as the draft-handling code of the component uses it:
 * strip leading and trailing white space and line terminators, keep the rest.
 */
module StringTrim {

  /**
   * The code points ECMA-262 counts as WhiteSpace (TAB, VT, FF, ZWNBSP and every
   * Unicode "Space_Separator") or as LineTerminator (LF, CR, LS, PS).
   */
  predicate IsWhitespace(c: char) {
    // WhiteSpace outside the Space_Separator category
    c == '\t' || c == '\U{000B}' || c == '\U{000C}' || c == '\U{FEFF}' ||
    // Space_Separator (Zs)
    c == ' ' || c == '\U{00A0}' || c == '\U{1680}' || ('\U{2000}' <= c <= '\U{200A}') ||
    c == '\U{202F}' || c == '\U{205F}' || c == '\U{3000}' ||
    // LineTerminator
    c == '\n' || c == '\r' || c == '\U{2028}' || c == '\U{2029}'
  }

  /** Some character of `s` is not white space. */
  predicate HasContent(s: string) {
    exists i | 0 <= i < |s| :: !IsWhitespace(s[i])
  }

  /** Neither end of `s` is white space. */
  predicate IsTrimmed(s: string) {
    s == [] || (!IsWhitespace(s[0]) && !IsWhitespace(s[|s| - 1]))
  }

  /** How many characters of white space `s` starts with. */
  function LeadingSpace(s: string): (n: nat)
    ensures n <= |s|
    ensures forall k | 0 <= k < n :: IsWhitespace(s[k])
    ensures n < |s| ==> !IsWhitespace(s[n])
  {
    if s != [] && IsWhitespace(s[0]) then
      var n := LeadingSpace(s[1..]);
      assert forall k | 1 <= k < n + 1 :: s[k] == s[1..][k - 1];
      n + 1
    else
      0
  }

  /** How many characters of white space `s` ends with. */
  function TrailingSpace(s: string): (n: nat)
    ensures n <= |s|
    ensures forall k | |s| - n <= k < |s| :: IsWhitespace(s[k])
    ensures n < |s| ==> !IsWhitespace(s[|s| - 1 - n])
  {
    if s != [] && IsWhitespace(s[|s| - 1]) then
      var n := TrailingSpace(s[..|s| - 1]);
      assert forall k | |s| - 1 - n <= k < |s| - 1 :: s[k] == s[..|s| - 1][k];
      n + 1
    else
      0
  }

  /**
   * `String.prototype.trim`: `s` with the white space at both ends removed.
   * Neither end of the result is white space, and the result is empty exactly
   * when `s` is nothing but white space.
   */
  function Trim(s: string): (r: string)
    ensures IsTrimmed(r)
    ensures r == [] <==> !HasContent(s)
  {
    var i := LeadingSpace(s);
    if i == |s| then
      ""
    else
      var j := |s| - TrailingSpace(s);
      assert i < j;
      assert HasContent(s) by { assert !IsWhitespace(s[i]); }
      s[i..j]
  }

  /**
   * What trimming removes is white space at the two ends and nothing else: the
   * result is the contiguous slice of `s` between them, so white space inside it is kept.
   */
  lemma TrimIsSlice(s: string)
    ensures var i, r := LeadingSpace(s), Trim(s);
      i + |r| <= |s| && r == s[i..i + |r|] &&
      (forall k | 0 <= k < i :: IsWhitespace(s[k])) &&
      (forall k | i + |r| <= k < |s| :: IsWhitespace(s[k]))
  {
  }

  /** A string that is already trimmed is left as it is. */
  lemma TrimmedIsFixpoint(s: string)
    requires IsTrimmed(s)
    ensures Trim(s) == s
  {
  }

  /** Trimming twice is trimming once. */
  lemma TrimIdempotent(s: string)
    ensures Trim(Trim(s)) == Trim(s)
  {
  }

  /** The example from the component's behaviour: padding goes, the word stays. */
  lemma TrimPaddedWord()
    ensures Trim("  hello  ") == "hello"
  {
    var s := "  hello  ";
    assert IsWhitespace(s[0]) && IsWhitespace(s[1]) && !IsWhitespace(s[2]);
    assert LeadingSpace(s) == 2;
    assert IsWhitespace(s[8]) && IsWhitespace(s[7]) && !IsWhitespace(s[6]);
    assert TrailingSpace(s) == 2;
    assert s[2..7] == "hello";
  }

  /** Blank drafts trim to nothing; a single inner space survives. */
  lemma TrimBlankAndInner()
    ensures Trim("   ") == "" && Trim("") == ""
    ensures Trim("a b") == "a b"
  {
  }
}
