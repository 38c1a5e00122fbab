/**
 * String primitives of the two runtimes the system is written for: number printing as
 * JavaScript and Java do it, the trimming rules of Java's String.trim()/isBlank() and of
 * JavaScript's String.prototype.trim(), Java's String.replace with an empty replacement,
 * and ASCII upper-casing.
 */
module Text {

  /** The character of a decimal digit. */
  function DigitChar(d: nat): (c: char)
    requires d < 10
    ensures '0' <= c <= '9'
  {
    (48 + d) as char
  }

  /** The value of a decimal digit character. */
  function DigitValue(c: char): (d: nat)
    requires '0' <= c <= '9'
    ensures d < 10
  {
    (c as int) - 48
  }

  predicate IsDigits(s: string) {
    forall i :: 0 <= i < |s| ==> '0' <= s[i] <= '9'
  }

  /** A natural number in decimal, as JavaScript's String(n) and Java's Integer.toString(n) print it. */
  function NatToString(n: nat): (s: string)
    ensures |s| > 0 && IsDigits(s)
    ensures s[0] == '0' <==> n == 0
    decreases n
  {
    if n < 10 then [DigitChar(n)] else NatToString(n / 10) + [DigitChar(n % 10)]
  }

  /** An integer in decimal, with a leading '-' when negative. */
  function IntToString(n: int): (s: string)
    ensures n >= 0 ==> s == NatToString(n)
    ensures n < 0 ==> s == "-" + NatToString(-n)
  {
    if n < 0 then "-" + NatToString(-n) else NatToString(n)
  }

  /** Reads a string of digits back as a number. */
  function DigitsValue(s: string): nat
    requires IsDigits(s)
  {
    if s == [] then 0 else DigitsValue(s[..|s| - 1]) * 10 + DigitValue(s[|s| - 1])
  }

  /** DigitsValue undoes NatToString. */
  lemma {:induction false} DigitsValueOfNatToString(n: nat)
    ensures DigitsValue(NatToString(n)) == n
    decreases n
  {
    if n >= 10 {
      var s := NatToString(n);
      assert s[..|s| - 1] == NatToString(n / 10);
      DigitsValueOfNatToString(n / 10);
    }
  }

  /** Different numbers print differently. */
  lemma NatToStringInjective(a: nat, b: nat)
    requires NatToString(a) == NatToString(b)
    ensures a == b
  {
    DigitsValueOfNatToString(a);
    DigitsValueOfNatToString(b);
  }

  /** Ids built as a fixed prefix followed by a number are distinct for distinct numbers. */
  lemma PrefixedIdInjective(prefix: string, a: nat, b: nat)
    requires prefix + NatToString(a) == prefix + NatToString(b)
    ensures a == b
  {
    assert (prefix + NatToString(a))[|prefix|..] == NatToString(a);
    assert (prefix + NatToString(b))[|prefix|..] == NatToString(b);
    NatToStringInjective(a, b);
  }

  /** The parts joined with `sep` between neighbours, as JavaScript's join and Java's String.join do. */
  function Join(parts: seq<string>, sep: string): string
    decreases |parts|
  {
    if parts == [] then ""
    else if |parts| == 1 then parts[0]
    else Join(parts[..|parts| - 1], sep) + sep + parts[|parts| - 1]
  }

  // ---------------------------------------------------------------------------
  // Character classes

  /** What Java's String.trim() strips: every character at or below U+0020. */
  predicate IsJavaTrimmable(c: char) {
    c <= ' '
  }

  /** Java's Character.isWhitespace, which String.isBlank() uses (non-breaking spaces excluded). */
  predicate IsJavaWhitespace(c: char) {
    ('\t' <= c <= '\r') || ('\U{1C}' <= c <= ' ') || c == '\U{1680}'
    || ('\U{2000}' <= c <= '\U{2006}') || ('\U{2008}' <= c <= '\U{200A}')
    || c == '\U{2028}' || c == '\U{2029}' || c == '\U{205F}' || c == '\U{3000}'
  }

  /** The class `\s` of Java's regular expressions without the UNICODE_CHARACTER_CLASS flag. */
  predicate IsRegexSpace(c: char) {
    c == ' ' || ('\t' <= c <= '\r')
  }

  /** What JavaScript's String.prototype.trim() strips: WhiteSpace and LineTerminator code points. */
  predicate IsJsWhitespace(c: char) {
    ('\t' <= c <= '\r') || c == ' ' || c == '\U{A0}' || c == '\U{1680}'
    || ('\U{2000}' <= c <= '\U{200A}') || c == '\U{2028}' || c == '\U{2029}'
    || c == '\U{202F}' || c == '\U{205F}' || c == '\U{3000}' || c == '\U{FEFF}'
  }

  /** Every regular-expression space is also stripped by Java's trim. */
  lemma RegexSpaceIsTrimmable(c: char)
    ensures IsRegexSpace(c) ==> IsJavaTrimmable(c)
  {
  }

  // ---------------------------------------------------------------------------
  // Trimming

  /** Drops the leading characters that `strip` selects. */
  function TrimStart(s: string, strip: char -> bool): (r: string)
    ensures |r| <= |s| && r == s[|s| - |r|..]
    ensures forall i :: 0 <= i < |s| - |r| ==> strip(s[i])
    ensures r != [] ==> !strip(r[0])
    decreases |s|
  {
    if s != [] && strip(s[0]) then TrimStart(s[1..], strip) else s
  }

  /** Drops the trailing characters that `strip` selects. */
  function TrimEnd(s: string, strip: char -> bool): (r: string)
    ensures |r| <= |s| && r == s[..|r|]
    ensures forall i :: |r| <= i < |s| ==> strip(s[i])
    ensures r != [] ==> !strip(r[|r| - 1])
    decreases |s|
  {
    if s != [] && strip(s[|s| - 1]) then TrimEnd(s[..|s| - 1], strip) else s
  }

  /** Drops the leading and the trailing characters that `strip` selects. */
  function Trim(s: string, strip: char -> bool): (r: string)
    ensures r != [] ==> !strip(r[0]) && !strip(r[|r| - 1])
    ensures r == [] <==> forall i :: 0 <= i < |s| ==> strip(s[i])
  {
    TrimEnd(TrimStart(s, strip), strip)
  }

  /** The trimmed string is a contiguous piece of the original. */
  lemma TrimIsSlice(s: string, strip: char -> bool) returns (start: nat)
    ensures start + |Trim(s, strip)| <= |s|
    ensures Trim(s, strip) == s[start..start + |Trim(s, strip)|]
  {
    var t := TrimStart(s, strip);
    start := |s| - |t|;
    assert Trim(s, strip) == TrimEnd(t, strip);
  }

  /** Trimming a string that starts and ends with a kept character changes nothing. */
  lemma TrimUnchanged(s: string, strip: char -> bool)
    requires s != [] ==> !strip(s[0]) && !strip(s[|s| - 1])
    ensures Trim(s, strip) == s
  {
  }

  /** Java's String.trim(). */
  function JavaTrim(s: string): string {
    Trim(s, IsJavaTrimmable)
  }

  /** JavaScript's String.prototype.trim(). */
  function JsTrim(s: string): string {
    Trim(s, IsJsWhitespace)
  }

  /** Java's String.isBlank(): empty or only Character.isWhitespace code points. */
  predicate IsBlank(s: string) {
    forall i :: 0 <= i < |s| ==> IsJavaWhitespace(s[i])
  }

  // ---------------------------------------------------------------------------
  // Substrings and removal

  /** `pat` occurs in `s` starting at index i. */
  predicate OccursAt(s: string, pat: string, i: nat) {
    i + |pat| <= |s| && s[i..i + |pat|] == pat
  }

  /** `pat` occurs somewhere in `s`. */
  ghost predicate ContainsInfix(s: string, pat: string) {
    exists i: nat :: OccursAt(s, pat, i)
  }

  /** A piece of a string free of `pat` is free of `pat` too. */
  lemma SliceKeepsAbsence(s: string, pat: string, lo: nat, hi: nat)
    requires lo <= hi <= |s|
    requires !ContainsInfix(s, pat)
    ensures !ContainsInfix(s[lo..hi], pat)
  {
    var t := s[lo..hi];
    forall i: nat | i + |pat| <= |t| ensures !OccursAt(t, pat, i) {
      var a, b := t[i..i + |pat|], s[lo + i..lo + i + |pat|];
      assert forall j :: 0 <= j < |a| ==> a[j] == b[j];
      assert a == b;
      assert !OccursAt(s, pat, lo + i);
    }
  }

  /** Trimming cannot create an occurrence of a pattern. */
  lemma TrimKeepsAbsence(s: string, strip: char -> bool, pat: string)
    requires !ContainsInfix(s, pat)
    ensures !ContainsInfix(Trim(s, strip), pat)
  {
    var start := TrimIsSlice(s, strip);
    SliceKeepsAbsence(s, pat, start, start + |Trim(s, strip)|);
  }

  /** Java's `s.replace(pat, "")`: occurrences of `pat` found scanning left to right, without overlap, are removed. */
  function RemoveAll(s: string, pat: string): (r: string)
    requires pat != []
    ensures |r| <= |s|
    decreases |s|
  {
    if |s| < |pat| then s
    else if s[..|pat|] == pat then RemoveAll(s[|pat|..], pat)
    else [s[0]] + RemoveAll(s[1..], pat)
  }

  /** Removing a pattern that does not occur is the identity. */
  lemma {:induction false} RemoveAllAbsent(s: string, pat: string)
    requires pat != []
    requires !ContainsInfix(s, pat)
    ensures RemoveAll(s, pat) == s
    decreases |s|
  {
    if |s| >= |pat| {
      assert !OccursAt(s, pat, 0);
      SliceKeepsAbsence(s, pat, 1, |s|);
      assert s[1..|s|] == s[1..];
      RemoveAllAbsent(s[1..], pat);
    }
  }

  /** The Markdown code fence. */
  const Fence := "```"

  /** After fence removal, a leading backtick (or two) was already there before. */
  lemma {:induction false} RemoveFenceKeepsHead(s: string)
    ensures var r := RemoveAll(s, Fence);
      (|r| >= 1 && r[0] == '`' ==> |s| >= 1 && s[0] == '`')
      && (|r| >= 2 && r[0] == '`' && r[1] == '`' ==> |s| >= 2 && s[0] == '`' && s[1] == '`')
    decreases |s|
  {
    if |s| >= 3 && s[..3] != Fence {
      RemoveFenceKeepsHead(s[1..]);
    }
  }

  /** Removing every fence can never join backticks into a new fence. */
  lemma {:induction false} RemoveFenceLeavesNoFence(s: string)
    ensures !ContainsInfix(RemoveAll(s, Fence), Fence)
    decreases |s|
  {
    if |s| >= 3 {
      if s[..3] == Fence {
        RemoveFenceLeavesNoFence(s[3..]);
      } else {
        var t := RemoveAll(s[1..], Fence);
        RemoveFenceLeavesNoFence(s[1..]);
        RemoveFenceKeepsHead(s[1..]);
        var r := RemoveAll(s, Fence);
        assert r == [s[0]] + t;
        forall i: nat | i + 3 <= |r| ensures !OccursAt(r, Fence, i) {
          if i == 0 {
            assert r[..3] == [s[0], t[0], t[1]];
            assert s[..3] == [s[0], s[1], s[2]];
          } else {
            assert r[i..i + 3] == t[i - 1..i + 2];
            assert !OccursAt(t, Fence, i - 1);
          }
        }
      }
    }
  }

  // ---------------------------------------------------------------------------
  // Case

  /** An ASCII lower-case letter upper-cased; every other character unchanged. */
  function UpperChar(c: char): (u: char)
    ensures !('a' <= u <= 'z')
    ensures 'a' <= c <= 'z' ==> u as int == c as int - 32
    ensures !('a' <= c <= 'z') ==> u == c
  {
    if 'a' <= c <= 'z' then (c as int - 32) as char else c
  }

  /** Java's toUpperCase restricted to ASCII letters. */
  function ToUpperAscii(s: string): (r: string)
    ensures |r| == |s|
    ensures forall i :: 0 <= i < |s| ==> r[i] == UpperChar(s[i])
  {
    seq(|s|, i requires 0 <= i < |s| => UpperChar(s[i]))
  }

  /** Upper-casing twice is upper-casing once. */
  lemma ToUpperAsciiIdempotent(s: string)
    ensures ToUpperAscii(ToUpperAscii(s)) == ToUpperAscii(s)
  {
  }
}
