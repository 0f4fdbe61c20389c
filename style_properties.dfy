/**
 * What the style pass guarantees, and where it falls short of covering the
 * slice: lemmas about `StyleFrom` (src/lexer.py:158-280).
 */
module StyleProperties {
  import opened Wrappers
  import opened Chars
  import opened Styles
  import opened Tokenizer
  import opened StyleEngine

  /** The sum of the runs' lengths: the bytes the host has styled after the call. */
  function TotalLength(rs: seq<Run>): nat {
    if rs == [] then 0 else rs[0].length + TotalLength(rs[1..])
  }

  lemma {:induction false} TotalLengthAppend(a: seq<Run>, b: seq<Run>)
    ensures TotalLength(a + b) == TotalLength(a) + TotalLength(b)
  {
    if a == [] {
      assert a + b == b;
    } else {
      assert (a + b)[0] == a[0] && (a + b)[1..] == a[1..] + b;
      TotalLengthAppend(a[1..], b);
    }
  }

  /**
   * Every `class` or `def` token that takes a name is separated from that
   * name by exactly one byte.
   */
  predicate OneByteGaps(ts: seq<Token>) {
    forall k :: 0 <= k < |ts| && IsIntroducer(ts[k].text) && NamesDefinition(ts, k) ==>
      TotalSize(ts[k + 1..FirstNonSpace(ts, k + 1)]) == 1
  }

  /** The runs `rs` are one per token from index `i` on, each of that token's length. */
  predicate Aligned(rs: seq<Run>, ts: seq<Token>, i: nat) {
    |rs| == |ts| - i && forall k :: 0 <= k < |rs| ==> i + k < |ts| && rs[k].length == ts[i + k].size
  }

  /** One step away from `class` and `def`: one run per token it consumes, of that token's length. */
  lemma {:induction false} StepOneRunPerToken(p: Profile, ts: seq<Token>, i: nat, inString: bool)
    requires i < |ts| && (inString || !IsIntroducer(ts[i].text))
    ensures var st := StepAt(p, ts, i, inString);
      |st.runs| == st.next - i && forall k :: 0 <= k < |st.runs| ==> st.runs[k].length == ts[i + k].size
  {
  }

  /** A step that keeps alignment, followed by aligned runs, gives aligned runs. */
  lemma {:induction false} AlignStep(p: Profile, ts: seq<Token>, i: nat, inString: bool)
    requires i < |ts| && (inString || !IsIntroducer(ts[i].text))
    requires var st := StepAt(p, ts, i, inString);
      Aligned(StyleFrom(p, ts, st.next, st.inString), ts, st.next)
    ensures Aligned(StyleFrom(p, ts, i, inString), ts, i)
  {
    var st := StepAt(p, ts, i, inString);
    StyleFromUnfold(p, ts, i, inString);
    StepOneRunPerToken(p, ts, i, inString);
    RunsAlign(st.runs, StyleFrom(p, ts, st.next, st.inString), ts, i);
  }

  /**
   * A `class` or `def` that takes no name, because no identifier follows it
   * or, for `class`, no `:` or `(` follows the name, is one KEYWORD run.
   */
  lemma {:induction false} DefinitionFallback(ts: seq<Token>, i: nat)
    requires i < |ts| && IsIntroducer(ts[i].text) && !NamesDefinition(ts, i)
    ensures DefinitionStep(ts, i) == Step([Run(ts[i].size, Keyword)], i + 1, false)
  {
  }

  /**
   * A `class` or `def` that takes a name, anywhere in the list: a KEYWORD run,
   * then a CLASSES or FUNCTION_DEF run of the name's length plus one, and the
   * pass goes on after the name.
   */
  lemma {:induction false} DefinitionNamed(ts: seq<Token>, i: nat)
    requires i < |ts| && IsIntroducer(ts[i].text) && NamesDefinition(ts, i)
    ensures var k := FirstNonSpace(ts, i + 1);
      && i < k < |ts| && IsIdentifier(ts[k].text)
      && DefinitionStep(ts, i) == Step([Run(ts[i].size, Keyword), Run(ts[k].size + 1, if ts[i].text == "class" then Classes else FunctionDef)], k + 1, false)
  {
  }

  /**
   * Except at a `class` or `def` that takes a name, the pass emits exactly
   * one run per token, of that token's byte length, in order.
   */
  lemma {:induction false} OneRunPerToken(p: Profile, ts: seq<Token>, i: nat, inString: bool)
    requires i <= |ts|
    requires forall k :: i <= k < |ts| && IsIntroducer(ts[k].text) ==> !NamesDefinition(ts, k)
    ensures Aligned(StyleFrom(p, ts, i, inString), ts, i)
    decreases |ts| - i
  {
    if i < |ts| {
      var st := StepAt(p, ts, i, inString);
      OneRunPerToken(p, ts, st.next, st.inString);
      if !inString && IsIntroducer(ts[i].text) {
        DefinitionFallback(ts, i);
        StyleFromUnfold(p, ts, i, inString);
        RunsAlign(st.runs, StyleFrom(p, ts, st.next, st.inString), ts, i);
      } else {
        AlignStep(p, ts, i, inString);
      }
    }
  }

  /** Runs aligned with the tokens from `i`, followed by runs aligned with the tokens after them. */
  lemma {:induction false} RunsAlign(a: seq<Run>, b: seq<Run>, ts: seq<Token>, i: nat)
    requires i + |a| <= |ts|
    requires forall k :: 0 <= k < |a| ==> a[k].length == ts[i + k].size
    requires Aligned(b, ts, i + |a|)
    ensures Aligned(a + b, ts, i)
  {
    forall k | 0 <= k < |a + b|
      ensures (a + b)[k].length == ts[i + k].size
    {
      if k >= |a| {
        assert (a + b)[k] == b[k - |a|];
      }
    }
  }

  lemma {:induction false} LengthsMatch(rs: seq<Run>, ts: seq<Token>)
    requires |rs| == |ts|
    requires forall k :: 0 <= k < |rs| ==> rs[k].length == ts[k].size
    ensures TotalLength(rs) == TotalSize(ts)
  {
    if rs != [] {
      LengthsMatch(rs[1..], ts[1..]);
    }
  }

  lemma {:induction false} TotalLengthPair(rs: seq<Run>)
    requires |rs| == 2
    ensures TotalLength(rs) == rs[0].length + rs[1].length
  {
    assert TotalLength(rs[1..]) == rs[1].length + TotalLength(rs[1..][1..]);
    assert rs[1..][1..] == [];
  }

  /** The bytes from token `i` through token `k`: both ends and the gap between. */
  lemma {:induction false} GapSize(ts: seq<Token>, i: nat, k: nat)
    requires i < k < |ts|
    ensures TotalSize(ts[i..k + 1]) == ts[i].size + TotalSize(ts[i + 1..k]) + ts[k].size
  {
    assert ts[i..k + 1] == [ts[i]] + ts[i + 1..k] + [ts[k]];
    TotalSizeAppend([ts[i]] + ts[i + 1..k], [ts[k]]);
    TotalSizeAppend([ts[i]], ts[i + 1..k]);
  }

  /**
   * At any index, a `class` or `def` that takes a name styles the bytes it
   * consumes less the gap, plus one: the runs cover the consumed bytes
   * exactly when the gap is one byte.
   */
  lemma {:induction false} DefinitionGap(ts: seq<Token>, i: nat)
    requires i < |ts| && IsIntroducer(ts[i].text) && NamesDefinition(ts, i)
    ensures var st := DefinitionStep(ts, i);
      var k := FirstNonSpace(ts, i + 1);
      && i < k < |ts|
      && TotalLength(st.runs) + TotalSize(ts[i + 1..k]) == TotalSize(ts[i..st.next]) + 1
  {
    var st := DefinitionStep(ts, i);
    var k := FirstNonSpace(ts, i + 1);
    DefinitionNamed(ts, i);
    GapSize(ts, i, k);
    TotalLengthPair(st.runs);
  }

  /** A `class` or `def` step covers its keyword, the one-byte gap and the name. */
  lemma {:induction false} DefinitionCoverage(ts: seq<Token>, i: nat)
    requires i < |ts| && IsIntroducer(ts[i].text) && OneByteGaps(ts)
    ensures var st := DefinitionStep(ts, i);
      TotalLength(st.runs) == TotalSize(ts[i..st.next])
  {
    var st := DefinitionStep(ts, i);
    if st.next == i + 1 {
      assert ts[i..st.next] == [ts[i]];
    } else {
      var k := FirstNonSpace(ts, i + 1);
      assert st.next == k + 1 && IsIdentifier(PeekText(ts, k));
      GapSize(ts, i, k);
      TotalLengthPair(st.runs);
    }
  }

  /** One step covers exactly the bytes of the tokens it consumes, given one-byte gaps. */
  lemma {:induction false} StepCoverage(p: Profile, ts: seq<Token>, i: nat, inString: bool)
    requires i < |ts| && OneByteGaps(ts)
    ensures var st := StepAt(p, ts, i, inString);
      TotalLength(st.runs) == TotalSize(ts[i..st.next])
  {
    var st := StepAt(p, ts, i, inString);
    if !inString && IsIntroducer(ts[i].text) {
      DefinitionCoverage(ts, i);
    } else {
      StepOneRunPerToken(p, ts, i, inString);
      LengthsMatch(st.runs, ts[i..st.next]);
    }
  }

  /** A step that covers its tokens, followed by runs that cover the rest, covers from `i`. */
  lemma {:induction false} CoverStep(p: Profile, ts: seq<Token>, i: nat, inString: bool)
    requires i < |ts| && OneByteGaps(ts)
    requires var st := StepAt(p, ts, i, inString);
      TotalLength(StyleFrom(p, ts, st.next, st.inString)) == TotalSize(ts[st.next..])
    ensures TotalLength(StyleFrom(p, ts, i, inString)) == TotalSize(ts[i..])
  {
    var st := StepAt(p, ts, i, inString);
    var rest := StyleFrom(p, ts, st.next, st.inString);
    StyleFromUnfold(p, ts, i, inString);
    StepCoverage(p, ts, i, inString);
    TotalLengthAppend(st.runs, rest);
    SplitSize(ts, i, st.next);
  }

  /** The bytes of the tokens from `i` on: those before `n` and those from `n` on. */
  lemma {:induction false} SplitSize(ts: seq<Token>, i: nat, n: nat)
    requires i <= n <= |ts|
    ensures TotalSize(ts[i..]) == TotalSize(ts[i..n]) + TotalSize(ts[n..])
  {
    assert ts[i..] == ts[i..n] + ts[n..];
    TotalSizeAppend(ts[i..n], ts[n..]);
  }

  /**
   * When every class/def gap is one byte wide, the runs add up to the bytes
   * of the tokens consumed, so every byte of the slice is styled once.
   */
  lemma {:induction false} Coverage(p: Profile, ts: seq<Token>, i: nat, inString: bool)
    requires i <= |ts|
    requires OneByteGaps(ts)
    ensures TotalLength(StyleFrom(p, ts, i, inString)) == TotalSize(ts[i..])
    decreases |ts| - i
  {
    if i < |ts| {
      var st := StepAt(p, ts, i, inString);
      Coverage(p, ts, st.next, st.inString);
      CoverStep(p, ts, i, inString);
    }
  }

  /** The same, for a whole slice: the runs add up to its UTF-8 length. */
  lemma {:induction false} SliceCoverage(p: Profile, text: string)
    requires OneByteGaps(Tokenize(text))
    ensures TotalLength(StyleTokens(p, Tokenize(text))) == Utf8Len(text)
  {
    var ts := Tokenize(text);
    Coverage(p, ts, 0, false);
    assert ts[0..] == ts;
    TokenizeSize(text);
  }

  /** Neither COMMENTS nor KEYARGS among `rs`. */
  predicate NoCommentOrKeyArgRun(rs: seq<Run>) {
    forall r :: r in rs ==> r.style != Comments && r.style != KeyArgs
  }

  lemma {:induction false} StepStyles(p: Profile, ts: seq<Token>, i: nat, inString: bool)
    requires i < |ts|
    ensures NoCommentOrKeyArgRun(StepAt(p, ts, i, inString).runs)
  {
  }

  /** No COMMENTS run and no KEYARGS run is ever emitted. */
  lemma {:induction false} NoCommentsOrKeyArgs(p: Profile, ts: seq<Token>, i: nat, inString: bool)
    ensures NoCommentOrKeyArgRun(StyleFrom(p, ts, i, inString))
    decreases |ts| - i
  {
    if i < |ts| {
      var st := StepAt(p, ts, i, inString);
      StyleFromUnfold(p, ts, i, inString);
      StepStyles(p, ts, i, inString);
      NoCommentsOrKeyArgs(p, ts, st.next, st.inString);
      assert NoCommentOrKeyArgRun(st.runs + StyleFrom(p, ts, st.next, st.inString));
    }
  }

  lemma {:induction false} AppendAssoc<T>(a: seq<T>, b: seq<T>, c: seq<T>)
    ensures a + (b + c) == (a + b) + c
  {
  }

  /** Index one past the first quote token at or after `j`, or the end of the list. */
  function CloseAfter(ts: seq<Token>, j: nat): (e: nat)
    requires j <= |ts|
    ensures j <= e <= |ts|
    ensures e == |ts| || (j < e && IsQuote(ts[e - 1].text))
    ensures forall m :: j <= m < e - 1 ==> !IsQuote(ts[m].text)
    decreases |ts| - j
  {
    if j == |ts| then j
    else if IsQuote(ts[j].text) then j + 1
    else CloseAfter(ts, j + 1)
  }

  /** One STRING run per token, of its byte length. */
  function StringRuns(ts: seq<Token>): (rs: seq<Run>)
    ensures |rs| == |ts|
    ensures forall k :: 0 <= k < |ts| ==> rs[k] == Run(ts[k].size, String)
  {
    if ts == [] then [] else [Run(ts[0].size, String)] + StringRuns(ts[1..])
  }

  /** Inside a string a token is styled STRING; a quote closes the string. */
  lemma {:induction false} StringStep(p: Profile, ts: seq<Token>, j: nat)
    requires j < |ts|
    ensures StyleFrom(p, ts, j, true) == [Run(ts[j].size, String)] + StyleFrom(p, ts, j + 1, !IsQuote(ts[j].text))
  {
    StyleFromUnfold(p, ts, j, true);
  }

  lemma {:induction false} StringRunsCons(ts: seq<Token>, j: nat, e: nat)
    requires j < e <= |ts|
    ensures StringRuns(ts[j..e]) == [Run(ts[j].size, String)] + StringRuns(ts[j + 1..e])
  {
    assert ts[j..e][1..] == ts[j + 1..e];
  }

  /**
   * Inside a string every token is styled STRING, up to and including the
   * next quote of either kind; after it the pass is outside the string.
   */
  lemma {:induction false} InsideString(p: Profile, ts: seq<Token>, j: nat)
    requires j <= |ts|
    ensures var e := CloseAfter(ts, j);
      StyleFrom(p, ts, j, true) == StringRuns(ts[j..e]) + StyleFrom(p, ts, e, false)
    decreases |ts| - j
  {
    if j == |ts| {
      assert ts[j..j] == [];
    } else if IsQuote(ts[j].text) {
      QuoteCloses(p, ts, j);
    } else {
      InsideString(p, ts, j + 1);
      StringContinues(p, ts, j);
    }
  }

  /** A quote inside a string is styled STRING and closes it. */
  lemma {:induction false} QuoteCloses(p: Profile, ts: seq<Token>, j: nat)
    requires j < |ts| && IsQuote(ts[j].text)
    ensures StyleFrom(p, ts, j, true) == StringRuns(ts[j..j + 1]) + StyleFrom(p, ts, j + 1, false)
  {
    StringStep(p, ts, j);
    StringRunsOne(ts, j);
  }

  lemma {:induction false} StringRunsOne(ts: seq<Token>, j: nat)
    requires j < |ts|
    ensures StringRuns(ts[j..j + 1]) == [Run(ts[j].size, String)]
  {
    assert ts[j..j + 1] == [ts[j]];
  }

  /** Any other token inside a string is styled STRING and the string goes on. */
  lemma {:induction false} StringContinues(p: Profile, ts: seq<Token>, j: nat)
    requires j < |ts| && !IsQuote(ts[j].text)
    requires var e := CloseAfter(ts, j + 1);
      StyleFrom(p, ts, j + 1, true) == StringRuns(ts[j + 1..e]) + StyleFrom(p, ts, e, false)
    ensures var e := CloseAfter(ts, j);
      StyleFrom(p, ts, j, true) == StringRuns(ts[j..e]) + StyleFrom(p, ts, e, false)
  {
    var e := CloseAfter(ts, j + 1);
    assert CloseAfter(ts, j) == e;
    StringStep(p, ts, j);
    StringRunsCons(ts, j, e);
    AppendAssoc([Run(ts[j].size, String)], StringRuns(ts[j + 1..e]), StyleFrom(p, ts, e, false));
  }

  /** A quote token outside a string is styled STRING and opens one. */
  lemma {:induction false} QuoteStep(p: Profile, ts: seq<Token>, i: nat)
    requires p.Valid()
    requires i < |ts| && IsQuote(ts[i].text)
    ensures StepAt(p, ts, i, false) == Step([Run(ts[i].size, String)], i + 1, true)
  {
    assert ts[i].text !in p.keywords;
  }

  /**
   * A quote token outside a string opens one: it and every token up to and
   * including the next quote are styled STRING.
   */
  lemma {:induction false} StringLiteral(p: Profile, ts: seq<Token>, i: nat)
    requires p.Valid()
    requires i < |ts| && IsQuote(ts[i].text)
    ensures var e := CloseAfter(ts, i + 1);
      StyleFrom(p, ts, i, false) == StringRuns(ts[i..e]) + StyleFrom(p, ts, e, false)
  {
    var e := CloseAfter(ts, i + 1);
    StyleFromUnfold(p, ts, i, false);
    QuoteStep(p, ts, i);
    InsideString(p, ts, i + 1);
    StringRunsCons(ts, i, e);
    AppendAssoc([Run(ts[i].size, String)], StringRuns(ts[i + 1..e]), StyleFrom(p, ts, e, false));
  }

  /**
   * The order in which the remaining tokens are classified: each style is
   * chosen exactly when no earlier test matched.
   */
  lemma {:induction false} PlainStylePrecedence(p: Profile, t: string)
    requires p.Valid()
    ensures PlainStyle(p, t) == Constants <==> IsNumeric(t) || t == "self"
    ensures PlainStyle(p, t) == Brackets <==> t in BracketTokens
    ensures PlainStyle(p, t) == String <==> IsQuote(t)
    ensures PlainStyle(p, t) == Types <==> (t in p.builtins && t != "self") || t in OperatorTokens
    ensures PlainStyle(p, t) == Default <==>
      !IsNumeric(t) && t !in BracketTokens && !IsQuote(t) && t !in p.builtins && t !in OperatorTokens && t != "self"
  {
    if t in p.builtins {
      assert IsIdentifier(t);
      assert !IsNumeric(t) by { assert !IsDigit(t[0]); }
    }
  }

  /** A whitespace token outside a string is styled DEFAULT. */
  lemma {:induction false} WhitespaceIsDefault(p: Profile, ts: seq<Token>, i: nat)
    requires p.Valid()
    requires i < |ts| && AllSpace(ts[i].text)
    ensures StepAt(p, ts, i, false) == Step([Run(ts[i].size, Default)], i + 1, false)
  {
    var t := ts[i].text;
    assert !IsIdentifier(t) && !IsNumeric(t) && !IsWord(t[0]);
    assert Strip(t) == [] by {
      TrimStartSpec(t);
    }
  }

  /** Outside a string, a keyword other than `class` and `def` is one KEYWORD run, tested before anything else. */
  lemma {:induction false} KeywordStep(p: Profile, ts: seq<Token>, i: nat)
    requires i < |ts| && ts[i].text in p.keywords && !IsIntroducer(ts[i].text)
    ensures StepAt(p, ts, i, false) == Step([Run(ts[i].size, Keyword)], i + 1, false)
  {
  }

  /**
   * Outside a string, a token that is neither `class`/`def`, nor a keyword,
   * nor a member access is one run of its plain style, and it opens a string
   * exactly when it is a quote.
   */
  lemma {:induction false} PlainStep(p: Profile, ts: seq<Token>, i: nat)
    requires i < |ts| && !IsIntroducer(ts[i].text) && ts[i].text !in p.keywords && !IsMemberAccess(ts, i)
    ensures StepAt(p, ts, i, false) == Step([Run(ts[i].size, PlainStyle(p, ts[i].text))], i + 1, IsQuote(ts[i].text))
  {
  }
}
