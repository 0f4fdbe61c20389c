/**
 * How `styleText` (src/lexer.py:158-280) styles a few shapes of line, for
 * every name and every whitespace gap: class and function headers, a method
 * call and an attribute access.
 */
module StyleExamples {
  import opened Chars
  import opened Styles
  import opened Tokenizer
  import opened StyleEngine
  import opened StyleProperties

  /** `def` is a word of three bytes. */
  lemma {:induction false} DefWord()
    ensures AllWord("def") && Utf8Len("def") == 3
  {
    AsciiLen("def");
  }

  /** `class` is a word of five bytes. */
  lemma {:induction false} ClassWord()
    ensures AllWord("class") && Utf8Len("class") == 5
  {
    AsciiLen("class");
  }

  /** A one-character ASCII symbol is a token shape of one byte, neither whitespace nor word. */
  lemma {:induction false} SymbolFacts(c: char)
    requires c == ':' || c == '.' || c == '('
    ensures TokenShape([c]) && !AllSpace([c]) && !AllWord([c]) && Utf8Len([c]) == 1
  {
    AsciiLen([c]);
  }

  /** Joining short sequence displays. */
  lemma {:induction false} Glue<T>(x: T, y: T, z: T, w: T)
    ensures [x] + [y, z] == [x, y, z] && [x, y] + [z] == [x, y, z]
    ensures [x] + [y, z, w] == [x, y, z, w] && [x] + ([y, z] + [w]) == [x, y, z, w]
  {
  }

  /** Whether `a` may be extended depends only on the first character after it. */
  lemma {:induction false} SeparatedFirst(a: string, b: string, x: string)
    requires a != [] && b != [] && Separated(a, b)
    ensures Separated(a, b + x)
  {
    assert (b + x)[0] == b[0];
  }

  /** `TokenizePrefix` with the tokens of the rest already known. */
  lemma {:induction false} TokenizeOnto(a: string, t: string, ts: seq<Token>)
    requires a != [] && TokenShape(a) && t != [] && Separated(a, t) && Tokenize(t) == ts
    ensures Tokenize(a + t) == [Token(a, Utf8Len(a))] + ts
  {
    TokenizePrefix(a, t);
  }

  /** Two token-shaped pieces, the second unable to extend the first, are two tokens. */
  lemma {:induction false} TokenizeTwo(a: string, b: string)
    requires a != [] && b != [] && TokenShape(a) && TokenShape(b) && Separated(a, b)
    ensures Tokenize(a + b) == [Token(a, Utf8Len(a)), Token(b, Utf8Len(b))]
  {
    TokenizePrefix(b, []);
    assert b + [] == b;
    TokenizePrefix(a, b);
  }

  /** Three token-shaped pieces, each unable to extend the one before, are three tokens. */
  lemma {:induction false} TokenizeThree(a: string, b: string, c: string)
    requires a != [] && b != [] && c != []
    requires TokenShape(a) && TokenShape(b) && TokenShape(c)
    requires Separated(a, b) && Separated(b, c)
    ensures Tokenize(a + b + c) == [Token(a, Utf8Len(a)), Token(b, Utf8Len(b)), Token(c, Utf8Len(c))]
  {
    SeparatedFirst(a, b, c);
    AppendAssoc(a, b, c);
    TokenizeTwo(b, c);
    TokenizeOnto(a, b + c, [Token(b, Utf8Len(b)), Token(c, Utf8Len(c))]);
  }

  /** Four token-shaped pieces, each unable to extend the one before, are four tokens. */
  lemma {:induction false} TokenizeFour(a: string, b: string, c: string, d: string)
    requires a != [] && b != [] && c != [] && d != []
    requires TokenShape(a) && TokenShape(b) && TokenShape(c) && TokenShape(d)
    requires Separated(a, b) && Separated(b, c) && Separated(c, d)
    ensures Tokenize(a + b + c + d) ==
      [Token(a, Utf8Len(a)), Token(b, Utf8Len(b)), Token(c, Utf8Len(c)), Token(d, Utf8Len(d))]
  {
    SeparatedFirst(a, b + c, d);
    SeparatedFirst(a, b, c);
    AppendAssoc(a, b + c, d);
    AppendAssoc(a, b, c);
    TokenizeThree(b, c, d);
    TokenizeOnto(a, b + c + d, [Token(b, Utf8Len(b)), Token(c, Utf8Len(c)), Token(d, Utf8Len(d))]);
    Glue(Token(a, Utf8Len(a)), Token(b, Utf8Len(b)), Token(c, Utf8Len(c)), Token(d, Utf8Len(d)));
  }

  /** A word is separated from a following whitespace gap, and the gap from a following non-space. */
  lemma {:induction false} GapSeparates(w: string, gap: string, next: string)
    requires AllWord(w) && AllSpace(gap) && next != [] && !IsSpace(next[0])
    ensures Separated(w, gap) && Separated(gap, next)
  {
    WordIsNotSpace(w[0]);
    WordIsNotSpace(gap[0]);
  }

  /** `def`, a whitespace gap and a name are three tokens. */
  lemma {:induction false} DefTokens(gap: string, name: string)
    requires AllSpace(gap) && IsIdentifier(name)
    ensures Tokenize("def" + gap + name) ==
      [Token("def", 3), Token(gap, Utf8Len(gap)), Token(name, Utf8Len(name))]
  {
    DefWord();
    WordIsNotSpace(name[0]);
    GapSeparates("def", gap, name);
    TokenizeThree("def", gap, name);
  }

  /**
   * The name after `def` is styled FUNCTION_DEF together with one byte of
   * the gap, whatever the byte sizes `g` and `n` of the gap and the name.
   */
  lemma {:induction false} DefStyles(p: Profile, ts: seq<Token>, gap: string, name: string, g: nat, n: nat)
    requires AllSpace(gap) && IsIdentifier(name)
    requires ts == [Token("def", 3), Token(gap, g), Token(name, n)]
    ensures StyleTokens(p, ts) == [Run(3, Keyword), Run(n + 1, FunctionDef)]
  {
    WordIsNotSpace(name[0]);
    FirstNonSpaceIs(ts, 1, 2);
    assert DefinitionStep(ts, 0) == Step([Run(3, Keyword), Run(n + 1, FunctionDef)], 3, false);
    StyleFromUnfold(p, ts, 0, false);
  }

  /** A function header `def<gap>name` is styled as two runs: the keyword, then the name and one byte before it. */
  lemma {:induction false} FunctionHeader(p: Profile, gap: string, name: string)
    requires AllSpace(gap) && IsIdentifier(name)
    ensures StyleTokens(p, Tokenize("def" + gap + name)) == [Run(3, Keyword), Run(Utf8Len(name) + 1, FunctionDef)]
  {
    DefTokens(gap, name);
    DefStyles(p, Tokenize("def" + gap + name), gap, name, Utf8Len(gap), Utf8Len(name));
  }

  /**
   * The bytes the two runs of a function header style fall short of the
   * slice by the gap's length less one, so only a one-byte gap leaves
   * nothing unstyled.
   */
  lemma {:induction false} FunctionHeaderGap(p: Profile, gap: string, name: string)
    requires AllSpace(gap) && IsIdentifier(name)
    ensures TotalLength(StyleTokens(p, Tokenize("def" + gap + name))) + Utf8Len(gap) == Utf8Len("def" + gap + name) + 1
  {
    FunctionHeader(p, gap, name);
    TotalLengthPair(StyleTokens(p, Tokenize("def" + gap + name)));
    Utf8LenAppend("def" + gap, name);
    Utf8LenAppend("def", gap);
    DefWord();
  }

  /** `class`, a whitespace gap, a name and `:` are four tokens. */
  lemma {:induction false} ClassTokens(gap: string, name: string)
    requires AllSpace(gap) && IsIdentifier(name)
    ensures Tokenize("class" + gap + name + ":") ==
      [Token("class", 5), Token(gap, Utf8Len(gap)), Token(name, Utf8Len(name)), Token(":", 1)]
  {
    ClassWord();
    SymbolFacts(':');
    WordIsNotSpace(name[0]);
    GapSeparates("class", gap, name);
    TokenizeFour("class", gap, name, ":");
  }

  /** A `:` at the end of the list is styled DEFAULT. */
  lemma {:induction false} ColonStep(p: Profile, ts: seq<Token>)
    requires p.Valid()
    requires |ts| == 4 && ts[3] == Token(":", 1)
    ensures StyleFrom(p, ts, 3, false) == [Run(1, Default)]
  {
    assert !IsIdentifier(":");
    assert !IsNumeric(":") by { assert !IsDigit(':'); }
    assert ":" !in p.builtins;
    assert OtherStep(p, ts, 3) == Step([Run(1, Default)], 4, false);
    StyleFromUnfold(p, ts, 3, false);
  }

  /** `class`, a gap, a name and `:`: the keyword, then the name with one byte of the gap. */
  lemma {:induction false} ClassStep(ts: seq<Token>, gap: string, name: string, g: nat, n: nat)
    requires AllSpace(gap) && IsIdentifier(name)
    requires ts == [Token("class", 5), Token(gap, g), Token(name, n), Token(":", 1)]
    ensures DefinitionStep(ts, 0) == Step([Run(5, Keyword), Run(n + 1, Classes)], 3, false)
  {
    WordIsNotSpace(name[0]);
    FirstNonSpaceIs(ts, 1, 2);
    assert !AllSpace(ts[3].text) by { assert ts[3].text[0] == ':'; }
    FirstNonSpaceIs(ts, 3, 3);
  }

  /** The class name is styled CLASSES together with one byte of the gap. */
  lemma {:induction false} ClassStyles(p: Profile, ts: seq<Token>, gap: string, name: string, g: nat, n: nat)
    requires p.Valid()
    requires AllSpace(gap) && IsIdentifier(name)
    requires ts == [Token("class", 5), Token(gap, g), Token(name, n), Token(":", 1)]
    ensures StyleTokens(p, ts) == [Run(5, Keyword), Run(n + 1, Classes), Run(1, Default)]
  {
    var s3 := StyleFrom(p, ts, 3, false);
    assert StyleTokens(p, ts) == [Run(5, Keyword), Run(n + 1, Classes)] + s3 by {
      ClassStep(ts, gap, name, g, n);
      StyleFromUnfold(p, ts, 0, false);
    }
    assert s3 == [Run(1, Default)] by {
      ColonStep(p, ts);
    }
    Glue(Run(5, Keyword), Run(n + 1, Classes), Run(1, Default), Run(1, Default));
  }

  /** A class header `class<gap>Name:`: keyword, name with one gap byte, colon. */
  lemma {:induction false} ClassHeader(p: Profile, gap: string, name: string)
    requires p.Valid()
    requires AllSpace(gap) && IsIdentifier(name)
    ensures StyleTokens(p, Tokenize("class" + gap + name + ":")) ==
      [Run(5, Keyword), Run(Utf8Len(name) + 1, Classes), Run(1, Default)]
  {
    ClassTokens(gap, name);
    ClassStyles(p, Tokenize("class" + gap + name + ":"), gap, name, Utf8Len(gap), Utf8Len(name));
  }

  /** `obj.m(`: a word, a dot, a word and a bracket are four tokens. */
  lemma {:induction false} CallTokens(obj: string, m: string)
    requires AllWord(obj) && IsAlpha(m)
    ensures Tokenize(obj + "." + m + "(") ==
      [Token(obj, Utf8Len(obj)), Token(".", 1), Token(m, Utf8Len(m)), Token("(", 1)]
  {
    SymbolFacts('.');
    SymbolFacts('(');
    WordIsNotSpace(obj[0]);
    WordIsNotSpace(m[0]);
    TokenizeFour(obj, ".", m, "(");
  }

  /** A word is never a dot padded with whitespace. */
  lemma {:induction false} WordIsNotDot(w: string)
    requires AllWord(w)
    ensures Strip(w) != "."
  {
    StripIsDot(w);
    forall i | 0 <= i < |w|
      ensures w[i] != '.'
    {
      assert IsWord(w[i]);
    }
  }

  /** A receiver word outside a string is styled by its own class and does not open a string. */
  lemma {:induction false} ReceiverStep(p: Profile, ts: seq<Token>, obj: string, o: nat)
    requires p.Valid()
    requires AllWord(obj) && obj !in p.keywords && !IsIntroducer(obj)
    requires |ts| > 0 && ts[0] == Token(obj, o)
    ensures StyleFrom(p, ts, 0, false) == [Run(o, PlainStyle(p, obj))] + StyleFrom(p, ts, 1, false)
  {
    WordIsNotDot(obj);
    assert !IsQuote(obj) by { assert IsWord(obj[0]); }
    assert OtherStep(p, ts, 0) == Step([Run(o, PlainStyle(p, obj))], 1, false);
    StyleFromUnfold(p, ts, 0, false);
  }

  /**
   * A `.` followed by a letters-only word: the dot is DEFAULT and the word
   * FUNCTIONS exactly when a `(` comes right after it.
   */
  lemma {:induction false} MemberStep(p: Profile, ts: seq<Token>, i: nat)
    requires p.Valid()
    requires i + 1 < |ts| && ts[i].text == "." && IsAlpha(ts[i + 1].text)
    ensures StyleFrom(p, ts, i, false) ==
      [Run(ts[i].size, Default), Run(ts[i + 1].size, if PeekText(ts, i + 2) == "(" then Functions else Default)]
      + StyleFrom(p, ts, i + 2, false)
  {
    assert !IsIdentifier(".");
    StripIsDot(".");
    StyleFromUnfold(p, ts, i, false);
  }

  /** A `(` at the end of the list is styled BRACKETS. */
  lemma {:induction false} BracketStep(p: Profile, ts: seq<Token>)
    requires p.Valid()
    requires |ts| == 4 && ts[3] == Token("(", 1)
    ensures StyleFrom(p, ts, 3, false) == [Run(1, Brackets)]
  {
    assert !IsIdentifier("(");
    assert !IsNumeric("(") by { assert !IsDigit('('); }
    assert OtherStep(p, ts, 3) == Step([Run(1, Brackets)], 4, false);
    StyleFromUnfold(p, ts, 3, false);
  }

  /**
   * `class (`: no name follows, so `class` is one KEYWORD run and the pass
   * goes on with the space and the bracket.
   */
  lemma {:induction false} ClassWithoutName(p: Profile, ts: seq<Token>)
    requires p.Valid()
    requires ts == [Token("class", 5), Token(" ", 1), Token("(", 1)]
    ensures StyleTokens(p, ts) == [Run(5, Keyword), Run(1, Default), Run(1, Brackets)]
  {
    assert PeekText(ts, FirstNonSpace(ts, 1)) == "(" by {
      assert ts[1].text == " " && ts[2].text == "(";
      assert IsSpace(" "[0]) && !IsSpace("("[0]);
      assert AllSpace(ts[1].text) && !AllSpace(ts[2].text);
    }
    assert !IsIdentifier("(");
    DefinitionFallback(ts, 0);
    StyleFromUnfold(p, ts, 0, false);
    WhitespaceIsDefault(p, ts, 1);
    StyleFromUnfold(p, ts, 1, false);
    assert !IsNumeric("(") by { assert !IsDigit('('); }
    assert OtherStep(p, ts, 2) == Step([Run(1, Brackets)], 3, false);
    StyleFromUnfold(p, ts, 2, false);
  }

  /** `.` followed by a word and `(`: the dot is DEFAULT, the word FUNCTIONS. */
  lemma {:induction false} CallStyles(p: Profile, ts: seq<Token>, obj: string, m: string, o: nat, n: nat)
    requires p.Valid()
    requires AllWord(obj) && obj !in p.keywords && !IsIntroducer(obj) && IsAlpha(m)
    requires ts == [Token(obj, o), Token(".", 1), Token(m, n), Token("(", 1)]
    ensures StyleTokens(p, ts) == [Run(o, PlainStyle(p, obj)), Run(1, Default), Run(n, Functions), Run(1, Brackets)]
  {
    assert ts[0] == Token(obj, o) && ts[1] == Token(".", 1);
    assert ts[2] == Token(m, n) && ts[3] == Token("(", 1);
    var s1, s3 := StyleFrom(p, ts, 1, false), StyleFrom(p, ts, 3, false);
    assert StyleTokens(p, ts) == [Run(o, PlainStyle(p, obj))] + s1 by {
      ReceiverStep(p, ts, obj, o);
    }
    assert s1 == [Run(1, Default), Run(n, Functions)] + s3 by {
      assert PeekText(ts, 3) == "(";
      MemberStep(p, ts, 1);
    }
    assert s3 == [Run(1, Brackets)] by {
      BracketStep(p, ts);
    }
    Glue(Run(o, PlainStyle(p, obj)), Run(1, Default), Run(n, Functions), Run(1, Brackets));
  }

  /** A method call `obj.m(`: receiver by its own class, dot DEFAULT, method FUNCTIONS, bracket BRACKETS. */
  lemma {:induction false} MethodCall(p: Profile, obj: string, m: string)
    requires p.Valid()
    requires AllWord(obj) && obj !in p.keywords && !IsIntroducer(obj) && IsAlpha(m)
    ensures StyleTokens(p, Tokenize(obj + "." + m + "(")) ==
      [Run(Utf8Len(obj), PlainStyle(p, obj)), Run(1, Default), Run(Utf8Len(m), Functions), Run(1, Brackets)]
  {
    CallTokens(obj, m);
    CallStyles(p, Tokenize(obj + "." + m + "("), obj, m, Utf8Len(obj), Utf8Len(m));
  }

  /** `obj.m` at the end of the slice: three tokens. */
  lemma {:induction false} AttributeTokens(obj: string, m: string)
    requires AllWord(obj) && IsAlpha(m)
    ensures Tokenize(obj + "." + m) == [Token(obj, Utf8Len(obj)), Token(".", 1), Token(m, Utf8Len(m))]
  {
    SymbolFacts('.');
    WordIsNotSpace(obj[0]);
    WordIsNotSpace(m[0]);
    TokenizeThree(obj, ".", m);
  }

  /** A word, `.` and a letters-only word at the end: the dot and the word are DEFAULT. */
  lemma {:induction false} AttributeStyles(p: Profile, ts: seq<Token>, obj: string, m: string, o: nat, n: nat)
    requires p.Valid()
    requires AllWord(obj) && obj !in p.keywords && !IsIntroducer(obj) && IsAlpha(m)
    requires ts == [Token(obj, o), Token(".", 1), Token(m, n)]
    ensures StyleTokens(p, ts) == [Run(o, PlainStyle(p, obj)), Run(1, Default), Run(n, Default)]
  {
    assert ts[0] == Token(obj, o) && ts[1] == Token(".", 1) && ts[2] == Token(m, n);
    var s1 := StyleFrom(p, ts, 1, false);
    assert StyleTokens(p, ts) == [Run(o, PlainStyle(p, obj))] + s1 by {
      ReceiverStep(p, ts, obj, o);
    }
    assert s1 == [Run(1, Default), Run(n, Default)] by {
      assert PeekText(ts, 3) == "";
      MemberStep(p, ts, 1);
    }
    Glue(Run(o, PlainStyle(p, obj)), Run(1, Default), Run(n, Default), Run(1, Default));
  }

  /** An attribute access `obj.m` with no call after it: the attribute stays DEFAULT. */
  lemma {:induction false} AttributeAccess(p: Profile, obj: string, m: string)
    requires p.Valid()
    requires AllWord(obj) && obj !in p.keywords && !IsIntroducer(obj) && IsAlpha(m)
    ensures StyleTokens(p, Tokenize(obj + "." + m)) ==
      [Run(Utf8Len(obj), PlainStyle(p, obj)), Run(1, Default), Run(Utf8Len(m), Default)]
  {
    AttributeTokens(obj, m);
    AttributeStyles(p, Tokenize(obj + "." + m), obj, m, Utf8Len(obj), Utf8Len(m));
  }
}
