/**
 * The java.lang.String operations the engine relies on: trim, toUpperCase,
 * toLowerCase and isBlank, on sequences of chars.
 */
module Text {

  /** String.trim removes every leading and trailing char whose code is at most U+0020. */
  predicate IsTrimmable(c: char) { c <= ' ' }

  /** A string that trim leaves as it is. */
  predicate IsTrimmed(s: string) {
    s == [] || (!IsTrimmable(s[0]) && !IsTrimmable(s[|s| - 1]))
  }

  predicate AllTrimmable(s: string) {
    forall k :: 0 <= k < |s| ==> IsTrimmable(s[k])
  }

  function TrimLeading(s: string): (r: string)
    ensures |r| <= |s| && r == s[|s| - |r|..]
    ensures AllTrimmable(s[..|s| - |r|])
    ensures r == [] || !IsTrimmable(r[0])
  {
    if |s| > 0 && IsTrimmable(s[0]) then TrimLeading(s[1..]) else s
  }

  function TrimTrailing(s: string): (r: string)
    ensures |r| <= |s| && r == s[..|r|]
    ensures AllTrimmable(s[|r|..])
    ensures r == [] || !IsTrimmable(r[|r| - 1])
  {
    if |s| > 0 && IsTrimmable(s[|s| - 1]) then
      var r := TrimTrailing(s[..|s| - 1]);
      assert s[|r|..] == s[..|s| - 1][|r|..] + [s[|s| - 1]];
      r
    else s
  }

  /** String.trim: the longest middle slice that neither starts nor ends with a char at or below U+0020. */
  function Trim(s: string): (r: string)
    ensures IsTrimmed(r)
    ensures |r| <= |s|
  {
    TrimTrailing(TrimLeading(s))
  }

  lemma TrimOfTrimmed(s: string)
    requires IsTrimmed(s)
    ensures Trim(s) == s
  {
  }

  lemma {:induction false} TrimLeadingPadded(pre: string, s: string)
    requires AllTrimmable(pre)
    requires s == [] || !IsTrimmable(s[0])
    ensures TrimLeading(pre + s) == s
  {
    if pre != [] {
      assert (pre + s)[1..] == pre[1..] + s;
      TrimLeadingPadded(pre[1..], s);
    }
  }

  lemma {:induction false} TrimTrailingPadded(s: string, post: string)
    requires AllTrimmable(post)
    requires s == [] || !IsTrimmable(s[|s| - 1])
    ensures TrimTrailing(s + post) == s
  {
    if post != [] {
      var n := |post|;
      assert (s + post)[..|s + post| - 1] == s + post[..n - 1];
      TrimTrailingPadded(s, post[..n - 1]);
    }
  }

  /** Surrounding blanks of any length are removed and nothing else is. */
  lemma TrimPadded(pre: string, s: string, post: string)
    requires AllTrimmable(pre) && AllTrimmable(post)
    requires IsTrimmed(s)
    ensures Trim(pre + s + post) == s
  {
    if s == [] {
      assert pre + s + post == (pre + post) + s;
      TrimLeadingPadded(pre + post, s);
    } else {
      assert pre + s + post == pre + (s + post);
      assert (s + post)[0] == s[0];
      TrimLeadingPadded(pre, s + post);
      TrimTrailingPadded(s, post);
    }
  }

  /** Trim is idempotent. */
  lemma TrimIdempotent(s: string)
    ensures Trim(Trim(s)) == Trim(s)
  {
    TrimOfTrimmed(Trim(s));
  }

  predicate IsLower(c: char) { 'a' <= c <= 'z' }
  predicate IsUpper(c: char) { 'A' <= c <= 'Z' }

  function UpperChar(c: char): (u: char)
    ensures !IsLower(u)
  {
    if IsLower(c) then (c as int - 32) as char else c
  }

  function LowerChar(c: char): (l: char)
    ensures !IsUpper(l)
  {
    if IsUpper(c) then (c as int + 32) as char else c
  }

  /** A char mapping that never moves a char across the trim boundary. */
  ghost predicate KeepsTrimmable(f: char -> char) {
    forall c :: IsTrimmable(f(c)) == IsTrimmable(c)
  }

  function MapChars(s: string, f: char -> char): (r: string)
    ensures |r| == |s|
    ensures forall k :: 0 <= k < |s| ==> r[k] == f(s[k])
  {
    seq(|s|, k requires 0 <= k < |s| => f(s[k]))
  }

  /** String.toUpperCase on ASCII letters. */
  function ToUpperCase(s: string): (r: string)
    ensures |r| == |s|
    ensures forall k :: 0 <= k < |s| ==> !IsLower(r[k]) && LowerChar(r[k]) == LowerChar(s[k])
  {
    MapChars(s, UpperChar)
  }

  /** String.toLowerCase on ASCII letters. */
  function ToLowerCase(s: string): (r: string)
    ensures |r| == |s|
    ensures forall k :: 0 <= k < |s| ==> !IsUpper(r[k]) && UpperChar(r[k]) == UpperChar(s[k])
  {
    MapChars(s, LowerChar)
  }

  lemma CaseMappingsKeepTrimmable()
    ensures KeepsTrimmable(UpperChar) && KeepsTrimmable(LowerChar)
  {
  }

  lemma {:induction false} TrimLeadingMapped(s: string, f: char -> char)
    requires KeepsTrimmable(f)
    ensures TrimLeading(MapChars(s, f)) == MapChars(TrimLeading(s), f)
  {
    if |s| > 0 {
      assert MapChars(s, f)[1..] == MapChars(s[1..], f);
      TrimLeadingMapped(s[1..], f);
    }
  }

  lemma {:induction false} TrimTrailingMapped(s: string, f: char -> char)
    requires KeepsTrimmable(f)
    ensures TrimTrailing(MapChars(s, f)) == MapChars(TrimTrailing(s), f)
  {
    if |s| > 0 {
      assert MapChars(s, f)[..|s| - 1] == MapChars(s[..|s| - 1], f);
      TrimTrailingMapped(s[..|s| - 1], f);
    }
  }

  /** Trimming and a case mapping commute. */
  lemma TrimMapped(s: string, f: char -> char)
    requires KeepsTrimmable(f)
    ensures Trim(MapChars(s, f)) == MapChars(Trim(s), f)
  {
    TrimLeadingMapped(s, f);
    TrimTrailingMapped(TrimLeading(s), f);
  }

  lemma ToLowerCaseIdempotent(s: string)
    ensures ToLowerCase(ToLowerCase(s)) == ToLowerCase(s)
  {
  }

  /** A string without lower-case letters is its own upper-case form. */
  lemma ToUpperCaseOfUpper(s: string)
    requires forall k :: 0 <= k < |s| ==> !IsLower(s[k])
    ensures ToUpperCase(s) == s
  {
  }

  /** Upper-casing a trimmed string keeps it trimmed and changes only letter case. */
  lemma ToUpperCaseOfTrimmed(t: string)
    requires IsTrimmed(t)
    ensures IsTrimmed(ToUpperCase(t))
    ensures EqualsIgnoreCase(ToUpperCase(t), t)
  {
    var u := ToUpperCase(t);
    if u != [] {
      assert u[0] == UpperChar(t[0]) && u[|u| - 1] == UpperChar(t[|t| - 1]);
    }
    forall k | 0 <= k < |u|
      ensures UpperChar(u[k]) == UpperChar(t[k])
    {
      assert u[k] == UpperChar(t[k]);
    }
  }

  /** Two strings that differ only in letter case. */
  predicate EqualsIgnoreCase(a: string, b: string) {
    |a| == |b| && forall k :: 0 <= k < |a| ==> UpperChar(a[k]) == UpperChar(b[k])
  }

  lemma ToUpperCaseOfIgnoreCase(s: string, n: string)
    requires EqualsIgnoreCase(s, n)
    requires forall k :: 0 <= k < |n| ==> !IsLower(n[k])
    ensures ToUpperCase(s) == n
  {
  }

  /** The trimmed, mapped form of a string is trimmed: normalising twice is normalising once. */
  lemma NormalizeLowerIdempotent(s: string)
    ensures ToLowerCase(Trim(ToLowerCase(Trim(s)))) == ToLowerCase(Trim(s))
  {
    var t := Trim(s);
    TrimMapped(t, LowerChar);
    TrimOfTrimmed(t);
    ToLowerCaseIdempotent(t);
  }

  /** The same for the upper-case form. */
  lemma NormalizeUpperIdempotent(s: string)
    ensures ToUpperCase(Trim(ToUpperCase(Trim(s)))) == ToUpperCase(Trim(s))
  {
    var u := ToUpperCase(Trim(s));
    ToUpperCaseOfTrimmed(Trim(s));
    TrimOfTrimmed(u);
    ToUpperCaseOfUpper(u);
  }

  /** A string equal to a trimmed upper-case name up to letter case stays trimmed. */
  lemma IgnoreCaseKeepsTrimmed(s: string, n: string)
    requires EqualsIgnoreCase(s, n) && IsTrimmed(n)
    requires forall k :: 0 <= k < |n| ==> !IsLower(n[k])
    ensures IsTrimmed(s)
  {
    if s != [] {
      assert UpperChar(s[0]) == n[0];
      assert UpperChar(s[|s| - 1]) == n[|n| - 1];
    }
  }

  /**
   * What the enum parsers see: surrounding blanks of any length and the letter
   * case of an upper-case name make no difference after trim and toUpperCase.
   */
  lemma UpperTrimOfPadded(pre: string, s: string, post: string, n: string)
    requires AllTrimmable(pre) && AllTrimmable(post)
    requires EqualsIgnoreCase(s, n) && IsTrimmed(n)
    requires forall k :: 0 <= k < |n| ==> !IsLower(n[k])
    ensures ToUpperCase(Trim(pre + s + post)) == n
  {
    IgnoreCaseKeepsTrimmed(s, n);
    TrimPadded(pre, s, post);
    ToUpperCaseOfIgnoreCase(s, n);
  }

  /**
   * Character.isWhitespace: the Unicode space, line and paragraph separators
   * other than the no-break spaces, and the ASCII controls U+0009 to U+000D
   * and U+001C to U+001F.
   */
  predicate IsWhitespace(c: char) {
    || ('\U{9}' <= c <= '\U{D}')
    || ('\U{1C}' <= c <= '\U{20}')
    || c == '\U{1680}'
    || ('\U{2000}' <= c <= '\U{2006}')
    || ('\U{2008}' <= c <= '\U{200A}')
    || c == '\U{2028}' || c == '\U{2029}' || c == '\U{205F}' || c == '\U{3000}'
  }

  /** String.isBlank: empty or whitespace only. */
  predicate IsBlank(s: string) {
    forall k :: 0 <= k < |s| ==> IsWhitespace(s[k])
  }
}
