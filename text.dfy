/**
 * The string helpers the operator relies on: Go's `strings.TrimSpace`,
 * `strings.ToUpper`, `strings.ToLower`, `strings.Contains` and the
 * title-casing of `cases.Title`. Case mapping is modelled on ASCII letters
 * only; every other character is left as it is.
 */
module Text {

  /** Go's `unicode.IsSpace`, the predicate `strings.TrimSpace` trims. */
  predicate IsSpace(c: char) {
    c == ' ' || c == '\t' || c == '\n' || c == '\U{000B}' || c == '\U{000C}' || c == '\r'
    || c == '\U{0085}' || c == '\U{00A0}' || c == '\U{1680}'
    || ('\U{2000}' <= c <= '\U{200A}')
    || c == '\U{2028}' || c == '\U{2029}' || c == '\U{202F}' || c == '\U{205F}' || c == '\U{3000}'
  }

  predicate AllSpace(s: string) {
    forall i :: 0 <= i < |s| ==> IsSpace(s[i])
  }

  /** Neither end of `s` is white space. */
  predicate IsTrimmed(s: string) {
    s == [] || (!IsSpace(s[0]) && !IsSpace(s[|s| - 1]))
  }

  /** Drops leading white space: the result is the suffix left after a run of spaces. */
  function TrimLeft(s: string): (r: string)
    ensures |r| <= |s| && r == s[|s| - |r|..]
    ensures r == [] || !IsSpace(r[0])
    ensures AllSpace(s[..|s| - |r|])
    decreases |s|
  {
    if s != [] && IsSpace(s[0]) then TrimLeft(s[1..]) else s
  }

  /** Drops trailing white space: the result is the prefix before a run of spaces. */
  function TrimRight(s: string): (r: string)
    ensures |r| <= |s| && r == s[..|r|]
    ensures r == [] || !IsSpace(r[|r| - 1])
    ensures AllSpace(s[|r|..])
    decreases |s|
  {
    if s != [] && IsSpace(s[|s| - 1]) then TrimRight(s[..|s| - 1]) else s
  }

  /** Go's `strings.TrimSpace`. */
  function TrimSpace(s: string): (r: string)
    ensures IsTrimmed(r)
    ensures r == [] <==> AllSpace(s)
    ensures IsTrimmed(s) ==> r == s
  {
    var l := TrimLeft(s);
    var r := TrimRight(l);
    assert l != [] ==> s[|s| - |l|] == l[0];
    assert l == [] ==> s[..|s| - |l|] == s;
    assert r != [] ==> r[0] == l[0];
    assert r == [] ==> l[|r|..] == l;
    r
  }

  /** Trimming twice is trimming once. */
  lemma {:induction false} TrimSpaceIdempotent(s: string)
    ensures TrimSpace(TrimSpace(s)) == TrimSpace(s)
  {
    assert IsTrimmed(TrimSpace(s));
  }

  function LowerChar(c: char): (d: char)
    ensures ('A' <= c <= 'Z') == ('a' <= d <= 'z' && d != c)
  {
    if 'A' <= c <= 'Z' then (c as int + 32) as char else c
  }

  function UpperChar(c: char): (d: char)
    ensures ('a' <= c <= 'z') == ('A' <= d <= 'Z' && d != c)
  {
    if 'a' <= c <= 'z' then (c as int - 32) as char else c
  }

  predicate IsLetterOrDigit(c: char) {
    ('a' <= c <= 'z') || ('A' <= c <= 'Z') || ('0' <= c <= '9')
  }

  /** Go's `strings.ToLower` restricted to ASCII. */
  function ToLower(s: string): (r: string)
    ensures |r| == |s|
    ensures forall i :: 0 <= i < |s| ==> r[i] == LowerChar(s[i])
  {
    if s == [] then [] else [LowerChar(s[0])] + ToLower(s[1..])
  }

  /** Go's `strings.ToUpper` restricted to ASCII. */
  function ToUpper(s: string): (r: string)
    ensures |r| == |s|
    ensures forall i :: 0 <= i < |s| ==> r[i] == UpperChar(s[i])
  {
    if s == [] then [] else [UpperChar(s[0])] + ToUpper(s[1..])
  }

  /** Changing case never turns a space into a non-space or back, so trimmed stays trimmed. */
  lemma ToUpperKeepsTrimmed(s: string)
    requires IsTrimmed(s)
    ensures IsTrimmed(ToUpper(s))
  {
    if s != [] {
      assert ToUpper(s)[0] == UpperChar(s[0]);
      assert ToUpper(s)[|s| - 1] == UpperChar(s[|s| - 1]);
    }
  }

  /** Upper-casing twice is upper-casing once. */
  lemma ToUpperIdempotent(s: string)
    ensures ToUpper(ToUpper(s)) == ToUpper(s)
  {
    forall i | 0 <= i < |s|
      ensures ToUpper(ToUpper(s))[i] == ToUpper(s)[i]
    {
      assert ToUpper(ToUpper(s))[i] == UpperChar(UpperChar(s[i]));
    }
  }

  /** ASCII case-insensitive equality, the comparison the phase parser ends up making. */
  predicate EqualFold(a: string, b: string) {
    ToLower(a) == ToLower(b)
  }

  /**
   * Title-casing with a simplified word break: a letter that starts a word
   * (the first character, or one after a character that is neither a letter
   * nor a digit) is upper-cased, every other letter lower-cased. Unlike the
   * Unicode word-break rules `cases.Title` follows, `_`, an apostrophe, `.`
   * or `:` between letters starts a new word here; on letters-only words,
   * such as every phase name, the two agree.
   */
  function TitleFrom(s: string, wordStart: bool): (r: string)
    ensures |r| == |s|
  {
    if s == [] then []
    else [if wordStart then UpperChar(s[0]) else LowerChar(s[0])] + TitleFrom(s[1..], !IsLetterOrDigit(s[0]))
  }

  function Title(s: string): (r: string)
    ensures |r| == |s|
  {
    TitleFrom(s, true)
  }

  /** Title-casing only changes case: lower-casing undoes it. */
  lemma {:induction false} LowerOfTitleFrom(s: string, wordStart: bool)
    ensures ToLower(TitleFrom(s, wordStart)) == ToLower(s)
    decreases |s|
  {
    if s != [] {
      LowerOfTitleFrom(s[1..], !IsLetterOrDigit(s[0]));
      assert TitleFrom(s, wordStart)[1..] == TitleFrom(s[1..], !IsLetterOrDigit(s[0]));
    }
  }

  lemma {:induction false} ToLowerIdempotent(s: string)
    ensures ToLower(ToLower(s)) == ToLower(s)
  {
  }

  /** Go's `strings.Contains`. */
  predicate Contains(s: string, sub: string)
    decreases |s|
  {
    |sub| <= |s| && (s[..|sub|] == sub || Contains(s[1..], sub))
  }
}
