/**
 * Character classes behind Python's `re` classes `\s` and `\w` and the `str`
 * methods `isspace`, `isalpha`, `isnumeric`, `isidentifier` and `strip`, as the
 * lexer uses them, and the UTF-8 encoded length of a string.
 *
 * Whitespace is Python's full whitespace set. Word characters, letters and
 * digits are restricted to ASCII (see README, "Left out").
 */
module Chars {

  /** `str.isspace` of one character; also the class `\s` of Python's `re`. */
  predicate IsSpace(c: char) {
    ('\t' <= c <= '\r') || ('\U{1C}' <= c <= '\U{1F}') || c == ' '
    || c == '\U{85}' || c == '\U{A0}' || c == '\U{1680}'
    || ('\U{2000}' <= c <= '\U{200A}') || c == '\U{2028}' || c == '\U{2029}'
    || c == '\U{202F}' || c == '\U{205F}' || c == '\U{3000}'
  }

  predicate IsLetter(c: char) {
    ('a' <= c <= 'z') || ('A' <= c <= 'Z')
  }

  predicate IsDigit(c: char) {
    '0' <= c <= '9'
  }

  /** The class `\w`: letters, digits and underscore. */
  predicate IsWord(c: char) {
    IsLetter(c) || IsDigit(c) || c == '_'
  }

  /** `s.isspace()`: non-empty and whitespace throughout. */
  predicate AllSpace(s: string) {
    |s| > 0 && forall i :: 0 <= i < |s| ==> IsSpace(s[i])
  }

  /** A maximal `\w+` match is word characters throughout. */
  predicate AllWord(s: string) {
    |s| > 0 && forall i :: 0 <= i < |s| ==> IsWord(s[i])
  }

  /** `s.isalpha()`. */
  predicate IsAlpha(s: string) {
    |s| > 0 && forall i :: 0 <= i < |s| ==> IsLetter(s[i])
  }

  /** `s.isnumeric()`. */
  predicate IsNumeric(s: string) {
    |s| > 0 && forall i :: 0 <= i < |s| ==> IsDigit(s[i])
  }

  /** `s.isidentifier()`: a letter or underscore, then word characters. */
  predicate IsIdentifier(s: string) {
    |s| > 0 && (IsLetter(s[0]) || s[0] == '_') && forall i :: 0 <= i < |s| ==> IsWord(s[i])
  }

  lemma {:induction false} WordIsNotSpace(c: char)
    ensures IsWord(c) ==> !IsSpace(c)
  {
  }

  /** `s.lstrip()`: drops the leading whitespace and nothing else. */
  function TrimStart(s: string): string {
    if s == [] || !IsSpace(s[0]) then s else TrimStart(s[1..])
  }

  /** `lstrip` keeps a suffix, drops only whitespace, and stops at the first other character. */
  lemma {:induction false} TrimStartSpec(s: string)
    ensures var r := TrimStart(s);
      && |r| <= |s| && r == s[|s| - |r|..]
      && (forall i :: 0 <= i < |s| - |r| ==> IsSpace(s[i]))
      && (r == [] || !IsSpace(r[0]))
  {
    if s != [] && IsSpace(s[0]) {
      var t, r := s[1..], TrimStart(s);
      TrimStartSpec(t);
      assert r == TrimStart(t);
      assert r == t[|t| - |r|..] == s[|s| - |r|..];
      forall i | 0 <= i < |s| - |r|
        ensures IsSpace(s[i])
      {
        if i > 0 { assert s[i] == t[i - 1]; }
      }
    }
  }

  /** `s.rstrip()`: drops the trailing whitespace and nothing else. */
  function TrimEnd(s: string): string {
    if s == [] || !IsSpace(s[|s| - 1]) then s else TrimEnd(s[..|s| - 1])
  }

  /** `rstrip` keeps a prefix, drops only whitespace, and stops at the last other character. */
  lemma {:induction false} TrimEndSpec(s: string)
    ensures var r := TrimEnd(s);
      && |r| <= |s| && r == s[..|r|]
      && (forall i :: |r| <= i < |s| ==> IsSpace(s[i]))
      && (r == [] || !IsSpace(r[|r| - 1]))
  {
    if s != [] && IsSpace(s[|s| - 1]) {
      var t, r := s[..|s| - 1], TrimEnd(s);
      TrimEndSpec(t);
      assert r == TrimEnd(t);
      assert r == t[..|r|] == s[..|r|];
      forall i | |r| <= i < |s|
        ensures IsSpace(s[i])
      {
        if i < |s| - 1 { assert s[i] == t[i]; }
      }
    }
  }

  /** `s.strip()`. */
  function Strip(s: string): string {
    TrimEnd(TrimStart(s))
  }

  /** `s.strip() == "."` holds exactly when `s` is one dot padded with whitespace. */
  lemma {:induction false} StripIsDot(s: string)
    ensures Strip(s) == "." <==>
      exists i :: 0 <= i < |s| && s[i] == '.' &&
        (forall j :: 0 <= j < |s| && j != i ==> IsSpace(s[j]))
  {
    var t := TrimStart(s);
    var off := |s| - |t|;
    TrimStartSpec(s);
    TrimEndSpec(t);
    if Strip(s) == "." {
      var r := TrimEnd(t);
      assert r == t[..1] && t[0] == '.';
      assert s[off] == '.';
      forall j | 0 <= j < |s| && j != off
        ensures IsSpace(s[j])
      {
        if j > off { assert t[j - off] == s[j]; }
      }
    }
    if exists i :: 0 <= i < |s| && s[i] == '.' && (forall j :: 0 <= j < |s| && j != i ==> IsSpace(s[j])) {
      var i :| 0 <= i < |s| && s[i] == '.' && (forall j :: 0 <= j < |s| && j != i ==> IsSpace(s[j]));
      assert t[0] == s[off];
      assert off == i;
      var r := TrimEnd(t);
      assert t[0] == '.';
      assert |r| >= 1;
      assert r[|r| - 1] == s[off + |r| - 1];
    }
  }

  /** Bytes in the UTF-8 encoding of one Unicode scalar value. */
  function Utf8Width(c: char): (w: nat)
    ensures 1 <= w <= 4
    ensures w == 1 <==> (c as int) < 0x80
  {
    var n := c as int;
    if n < 0x80 then 1 else if n < 0x800 then 2 else if n < 0x1_0000 then 3 else 4
  }

  /** `len(bytearray(s, "utf-8"))`. */
  function Utf8Len(s: string): (n: nat)
    ensures |s| <= n <= 4 * |s|
  {
    if s == [] then 0 else Utf8Width(s[0]) + Utf8Len(s[1..])
  }

  /** Text made of ASCII characters is one byte per character. */
  lemma {:induction false} AsciiLen(s: string)
    requires forall k :: 0 <= k < |s| ==> (s[k] as int) < 0x80
    ensures Utf8Len(s) == |s|
  {
    if s != [] {
      AsciiLen(s[1..]);
    }
  }

  lemma {:induction false} Utf8LenAppend(a: string, b: string)
    ensures Utf8Len(a + b) == Utf8Len(a) + Utf8Len(b)
  {
    if a != [] {
      assert (a + b)[0] == a[0] && (a + b)[1..] == a[1..] + b;
      Utf8LenAppend(a[1..], b);
    } else {
      assert a + b == b;
    }
  }
}
