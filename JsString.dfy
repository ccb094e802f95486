/** `String.prototype.trim` as the search box and the voice handler use it.

    JavaScript strings are sequences of UTF-16 code units; here a string is a
    `seq<char>`. Every character `trim` removes lies in the Basic Multilingual
    Plane, so the two views agree on what is removed. */
module JsString {

  /** The characters ECMAScript calls WhiteSpace or LineTerminator: TAB, VT, FF,
      SPACE, NBSP, ZWNBSP, the other space separators (category Zs), LF, CR, LS
      and PS. */
  predicate IsWhitespace(c: char)
  {
    || c == '\t' || c == '\n' || c == '\U{000B}' || c == '\U{000C}' || c == '\r'
    || c == ' ' || c == '\U{00A0}' || c == '\U{1680}'
    || ('\U{2000}' <= c <= '\U{200A}')
    || c == '\U{2028}' || c == '\U{2029}' || c == '\U{202F}' || c == '\U{205F}'
    || c == '\U{3000}' || c == '\U{FEFF}'
  }

  predicate AllWhitespace(s: string)
  {
    forall k :: 0 <= k < |s| ==> IsWhitespace(s[k])
  }

  /** `r` is what is left of `s` once the whitespace before position `i` and
      the whitespace after `r` are cut off, and `r` neither starts nor ends
      with whitespace. */
  ghost predicate IsTrimAt(s: string, r: string, i: nat)
  {
    && i + |r| <= |s|
    && r == s[i..i + |r|]
    && (forall k :: 0 <= k < i ==> IsWhitespace(s[k]))
    && (forall k :: i + |r| <= k < |s| ==> IsWhitespace(s[k]))
    && (r != [] ==> !IsWhitespace(s[i]) && !IsWhitespace(s[i + |r| - 1]))
  }

  /** The length of the whitespace run `s` starts with. */
  function LeadingWhitespace(s: string): (n: nat)
    ensures n <= |s|
    ensures forall k :: 0 <= k < n ==> IsWhitespace(s[k])
    ensures n < |s| ==> !IsWhitespace(s[n])
  {
    if s != [] && IsWhitespace(s[0]) then
      var n := LeadingWhitespace(s[1..]);
      assert forall k :: 1 <= k < n + 1 ==> s[k] == s[1..][k - 1];
      n + 1
    else
      0
  }

  /** The length of `s` up to and including its last non-whitespace
      character. */
  function KeptLength(s: string): (n: nat)
    ensures n <= |s|
    ensures forall k :: n <= k < |s| ==> IsWhitespace(s[k])
    ensures n > 0 ==> !IsWhitespace(s[n - 1])
  {
    if s != [] && IsWhitespace(s[|s| - 1]) then
      var n := KeptLength(s[..|s| - 1]);
      assert forall k :: n <= k < |s| - 1 ==> s[k] == s[..|s| - 1][k];
      n
    else
      |s|
  }

  /** `String.prototype.trim`: both whitespace runs removed. */
  function Trim(s: string): (r: string)
    ensures IsTrimAt(s, r, LeadingWhitespace(s))
  {
    var i := LeadingWhitespace(s);
    var t := s[i..];
    var n := KeptLength(t);
    forall k | i + n <= k < |s|
      ensures IsWhitespace(s[k])
    {
      assert s[k] == t[k - i];
    }
    assert t[..n] == s[i..i + n];
    t[..n]
  }

  /** A string has exactly one trimmed form: any `r` that satisfies the
      characterisation is the one `Trim` computes. */
  lemma {:induction false} TrimUnique(s: string, r: string, i: nat, r': string, i': nat)
    requires IsTrimAt(s, r, i) && IsTrimAt(s, r', i')
    ensures r == r'
  {
    // Both nonempty forms start at the first non-whitespace character of `s`
    // and end at its last one; an empty form leaves no such character.
  }

  /** The characterisation pins down `Trim`. */
  lemma TrimIs(s: string, r: string, i: nat)
    requires IsTrimAt(s, r, i)
    ensures Trim(s) == r
  {
    TrimUnique(s, Trim(s), LeadingWhitespace(s), r, i);
  }

  /** Trimming twice is trimming once; the voice handler relies on it, since it
      trims the transcript and `search` trims it again. */
  lemma {:induction false} TrimIdempotent(s: string)
    ensures Trim(Trim(s)) == Trim(s)
  {
    var r := Trim(s);
    assert IsTrimAt(r, r, 0) by {
      assert r[0..|r|] == r;
    }
    TrimUnique(r, Trim(r), LeadingWhitespace(r), r, 0);
  }

  /** Whitespace typed before or after a text does not change its trimmed form. */
  lemma {:induction false} TrimIgnoresPadding(before: string, s: string, after: string)
    requires AllWhitespace(before) && AllWhitespace(after)
    ensures Trim(before + s + after) == Trim(s)
  {
    var r := Trim(s);
    var i := LeadingWhitespace(s);
    var p := before + s + after;
    var j := |before| + i;
    assert p[j..j + |r|] == s[i..i + |r|];
    assert forall k :: |before| <= k < |before| + |s| ==> p[k] == s[k - |before|];
    assert forall k :: |before| + |s| <= k < |p| ==> p[k] == after[k - |before| - |s|];
    assert IsTrimAt(p, r, j);
    TrimUnique(p, Trim(p), LeadingWhitespace(p), r, j);
  }
}
