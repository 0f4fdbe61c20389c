/**
 * `get_tokens` (src/lexer.py:150-156): the matches of the pattern
 * `[*]\/|\/[*]|\s+|\w+|\W`, found left to right, each paired with its
 * UTF-8 byte length.
 */
module Tokenizer {
  import opened Chars

  /** A token's text and its byte length. */
  datatype Token = Token(text: string, size: nat)

  /** Length of the longest whitespace prefix: a greedy `\s+`. */
  function SpaceSpan(s: string): (n: nat)
    ensures n <= |s|
  {
    if s == [] || !IsSpace(s[0]) then 0 else 1 + SpaceSpan(s[1..])
  }

  /** The whitespace span is all whitespace and cannot be extended. */
  lemma {:induction false} SpaceSpanSpec(s: string)
    ensures var n := SpaceSpan(s);
      && (forall k :: 0 <= k < n ==> IsSpace(s[k]))
      && (n == |s| || !IsSpace(s[n]))
  {
    if s != [] && IsSpace(s[0]) {
      SpaceSpanSpec(s[1..]);
      var n := SpaceSpan(s);
      forall k | 0 <= k < n
        ensures IsSpace(s[k])
      {
        if k > 0 { assert s[k] == s[1..][k - 1]; }
      }
      if n < |s| { assert s[n] == s[1..][n - 1]; }
    }
  }

  /** Length of the longest word-character prefix: a greedy `\w+`. */
  function WordSpan(s: string): (n: nat)
    ensures n <= |s|
  {
    if s == [] || !IsWord(s[0]) then 0 else 1 + WordSpan(s[1..])
  }

  /** The word span is all word characters and cannot be extended. */
  lemma {:induction false} WordSpanSpec(s: string)
    ensures var n := WordSpan(s);
      && (forall k :: 0 <= k < n ==> IsWord(s[k]))
      && (n == |s| || !IsWord(s[n]))
  {
    if s != [] && IsWord(s[0]) {
      WordSpanSpec(s[1..]);
      var n := WordSpan(s);
      forall k | 0 <= k < n
        ensures IsWord(s[k])
      {
        if k > 0 { assert s[k] == s[1..][k - 1]; }
      }
      if n < |s| { assert s[n] == s[1..][n - 1]; }
    }
  }

  /** The texts a match of the pattern can have. */
  predicate TokenShape(t: string) {
    t == "*/" || t == "/*" || AllSpace(t) || AllWord(t)
    || (|t| == 1 && !IsSpace(t[0]) && !IsWord(t[0]))
  }

  /**
   * Length of the match at the start of `s`: the alternatives are tried in
   * the pattern's order and the first that matches is taken.
   */
  function MatchLength(s: string): (n: nat)
    requires s != []
    ensures 1 <= n <= |s|
  {
    if |s| >= 2 && (s[..2] == "*/" || s[..2] == "/*") then 2
    else if IsSpace(s[0]) then SpaceSpan(s)
    else if IsWord(s[0]) then WordSpan(s)
    else 1
  }

  /**
   * The match has one of the pattern's shapes, and a whitespace or word
   * match takes every character of its class that follows.
   */
  lemma {:induction false} MatchLengthSpec(s: string)
    requires s != []
    ensures var n := MatchLength(s);
      && TokenShape(s[..n])
      && (n < |s| && AllSpace(s[..n]) ==> !IsSpace(s[n]))
      && (n < |s| && AllWord(s[..n]) ==> !IsWord(s[n]))
  {
    var n := MatchLength(s);
    SpaceSpanSpec(s);
    WordSpanSpec(s);
    WordIsNotSpace(s[0]);
    if |s| >= 2 && (s[..2] == "*/" || s[..2] == "/*") {
      assert s[..n] == s[..2];
      assert !AllSpace(s[..n]) && !AllWord(s[..n]) by {
        assert s[..n][0] == '*' || s[..n][0] == '/';
      }
    } else if IsSpace(s[0]) {
      assert AllSpace(s[..n]);
    } else if IsWord(s[0]) {
      assert AllWord(s[..n]);
    } else {
      assert s[..n] == [s[0]];
    }
  }

  /** The token list of `text`, in order. */
  function Tokenize(text: string): (ts: seq<Token>)
    ensures |ts| <= |text|
    ensures ts == [] <==> text == []
    decreases |text|
  {
    if text == [] then []
    else
      var n := MatchLength(text);
      [Token(text[..n], Utf8Len(text[..n]))] + Tokenize(text[n..])
  }

  /**
   * Every token is a non-empty match of the pattern, paired with its UTF-8
   * length; only the empty text has no tokens.
   */
  lemma {:induction false} TokenizeShapes(text: string)
    ensures var ts := Tokenize(text);
      && (forall k :: 0 <= k < |ts| ==>
            ts[k].text != [] && TokenShape(ts[k].text) && ts[k].size == Utf8Len(ts[k].text))
      && (text == [] <==> ts == [])
    decreases |text|
  {
    if text != [] {
      var n := MatchLength(text);
      MatchLengthSpec(text);
      TokenizeShapes(text[n..]);
      var ts := Tokenize(text);
      assert ts[1..] == Tokenize(text[n..]);
      forall k | 0 <= k < |ts|
        ensures ts[k].text != [] && TokenShape(ts[k].text) && ts[k].size == Utf8Len(ts[k].text)
      {
        if k > 0 {
          assert ts[k] == ts[1..][k - 1];
        }
      }
    }
  }

  /** The texts of the tokens, joined. */
  function Joined(ts: seq<Token>): string {
    if ts == [] then [] else ts[0].text + Joined(ts[1..])
  }

  /** The sum of the tokens' byte lengths. */
  function TotalSize(ts: seq<Token>): nat {
    if ts == [] then 0 else ts[0].size + TotalSize(ts[1..])
  }

  lemma {:induction false} TotalSizeAppend(a: seq<Token>, b: seq<Token>)
    ensures TotalSize(a + b) == TotalSize(a) + TotalSize(b)
  {
    if a == [] {
      assert a + b == b;
    } else {
      assert (a + b)[0] == a[0] && (a + b)[1..] == a[1..] + b;
      TotalSizeAppend(a[1..], b);
    }
  }

  /** The tokens partition the text: joined back together they give it exactly. */
  lemma {:induction false} TokenizeJoins(text: string)
    ensures Joined(Tokenize(text)) == text
    decreases |text|
  {
    if text != [] {
      var n := MatchLength(text);
      var ts := Tokenize(text);
      assert ts[0].text == text[..n] && ts[1..] == Tokenize(text[n..]);
      TokenizeJoins(text[n..]);
      calc {
        Joined(ts);
        ts[0].text + Joined(ts[1..]);
        text[..n] + text[n..];
        { assert text == text[..n] + text[n..]; }
        text;
      }
    }
  }

  /** The byte lengths of the tokens add up to the UTF-8 length of the text. */
  lemma {:induction false} TokenizeSize(text: string)
    ensures TotalSize(Tokenize(text)) == Utf8Len(text)
    decreases |text|
  {
    if text != [] {
      var n := MatchLength(text);
      var ts := Tokenize(text);
      assert ts[1..] == Tokenize(text[n..]);
      TokenizeSize(text[n..]);
      assert text == text[..n] + text[n..];
      Utf8LenAppend(text[..n], text[n..]);
    }
  }

  /**
   * Two neighbouring tokens could not have been one match: whitespace runs
   * and word runs are maximal, and a `*` or `/` standing alone is never
   * followed by the character that would make it a comment delimiter.
   */
  predicate Separated(a: string, b: string)
    requires a != [] && b != []
  {
    && !(AllSpace(a) && IsSpace(b[0]))
    && !(AllWord(a) && IsWord(b[0]))
    && !(a == "*" && b[0] == '/')
    && !(a == "/" && b[0] == '*')
  }

  lemma {:induction false} TokenizeMaximal(text: string)
    ensures var ts := Tokenize(text);
      && (forall k :: 0 <= k < |ts| ==> ts[k].text != [])
      && (forall k :: 0 <= k < |ts| - 1 ==> Separated(ts[k].text, ts[k + 1].text))
    decreases |text|
  {
    TokenizeShapes(text);
    if text != [] {
      var n := MatchLength(text);
      MatchLengthSpec(text);
      var ts := Tokenize(text);
      var rest := Tokenize(text[n..]);
      assert ts[1..] == rest;
      TokenizeMaximal(text[n..]);
      if |ts| > 1 {
        var a := text[..n];
        assert ts[0].text == a;
        TokenizeFirst(text[n..]);
        var c := text[n];
        assert ts[1].text[0] == c;
        if a == "*" {
          assert text[..2] != "*/";
          assert text[..2] == [text[0], c];
        }
        if a == "/" {
          assert text[..2] != "/*";
          assert text[..2] == [text[0], c];
        }
        assert Separated(ts[0].text, ts[1].text);
      }
    }
  }

  /** A maximal word span is unique. */
  lemma {:induction false} WordSpanIs(s: string, n: nat)
    requires n <= |s|
    requires forall k :: 0 <= k < n ==> IsWord(s[k])
    requires n == |s| || !IsWord(s[n])
    ensures WordSpan(s) == n
  {
    WordSpanSpec(s);
  }

  /** A maximal whitespace span is unique. */
  lemma {:induction false} SpaceSpanIs(s: string, n: nat)
    requires n <= |s|
    requires forall k :: 0 <= k < n ==> IsSpace(s[k])
    requires n == |s| || !IsSpace(s[n])
    ensures SpaceSpan(s) == n
  {
    SpaceSpanSpec(s);
  }

  /** The pieces, joined. */
  function Concat(pieces: seq<string>): string {
    if pieces == [] then [] else pieces[0] + Concat(pieces[1..])
  }

  /** Each piece paired with its UTF-8 length. */
  function TokensOf(pieces: seq<string>): (ts: seq<Token>)
    ensures |ts| == |pieces|
    ensures forall k :: 0 <= k < |ts| ==> ts[k] == Token(pieces[k], Utf8Len(pieces[k]))
  {
    if pieces == [] then [] else [Token(pieces[0], Utf8Len(pieces[0]))] + TokensOf(pieces[1..])
  }

  /** A token-shaped piece that its successor cannot extend is the first match. */
  lemma {:induction false} FirstMatch(a: string, rest: string)
    requires a != [] && TokenShape(a)
    requires rest != [] ==> Separated(a, rest)
    ensures MatchLength(a + rest) == |a|
  {
    var s := a + rest;
    assert s[..|a|] == a;
    assert forall k :: 0 <= k < |a| ==> s[k] == a[k];
    assert |a| < |s| ==> s[|a|] == rest[0];
    if |s| >= 2 {
      assert s[..2] == [s[0], s[1]];
    }
    WordIsNotSpace(s[0]);
    if a == "*/" || a == "/*" {
      assert s[..2] == a;
    } else if AllSpace(a) {
      SpaceSpanIs(s, |a|);
    } else if AllWord(a) {
      WordSpanIs(s, |a|);
    } else {
      assert |a| == 1;
    }
  }

  /** A token-shaped piece that its successor cannot extend is the first token. */
  lemma {:induction false} TokenizePrefix(a: string, rest: string)
    requires a != [] && TokenShape(a)
    requires rest != [] ==> Separated(a, rest)
    ensures Tokenize(a + rest) == [Token(a, Utf8Len(a))] + Tokenize(rest)
  {
    FirstMatch(a, rest);
    var s := a + rest;
    assert s[..|a|] == a && s[|a|..] == rest;
  }

  /**
   * The converse of `TokenizeJoins` and `TokenizeMaximal`: a text cut into
   * non-empty token-shaped pieces, no two neighbours of which could be one
   * match, is tokenized into exactly those pieces.
   */
  lemma {:induction false} TokenizeUnique(pieces: seq<string>)
    requires forall k :: 0 <= k < |pieces| ==> pieces[k] != [] && TokenShape(pieces[k])
    requires forall k :: 0 <= k < |pieces| - 1 ==> Separated(pieces[k], pieces[k + 1])
    ensures Tokenize(Concat(pieces)) == TokensOf(pieces)
    decreases |pieces|
  {
    if pieces != [] {
      var a, rest := pieces[0], Concat(pieces[1..]);
      if |pieces| > 1 {
        assert rest == pieces[1] + Concat(pieces[2..]) by {
          assert pieces[1..][1..] == pieces[2..];
        }
        assert rest[0] == pieces[1][0];
      } else {
        assert rest == [];
      }
      TokenizePrefix(a, rest);
      TokenizeUnique(pieces[1..]);
      assert TokensOf(pieces) == [Token(a, Utf8Len(a))] + TokensOf(pieces[1..]);
    }
  }

  /** The first token starts with the first character of the text. */
  lemma {:induction false} TokenizeFirst(text: string)
    requires text != []
    ensures Tokenize(text)[0].text[0] == text[0]
  {
  }
}
