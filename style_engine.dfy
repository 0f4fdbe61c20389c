/**
 * `styleText` (src/lexer.py:158-280): one pass over the token list that
 * emits (length, style) runs. `StepAt` and `StyleFrom` specify one loop
 * iteration and the whole pass; `StyleText` is the loop itself.
 */
module StyleEngine {
  import opened Wrappers
  import opened Chars
  import opened Styles
  import opened Tokenizer

  /** One `setStyling(length, style)` call. */
  datatype Run = Run(length: nat, style: Style)

  /**
   * The keyword list and the builtin function names the lexer is built with.
   * Both hold only identifiers, as Python's do.
   */
  datatype Profile = Profile(keywords: set<string>, builtins: set<string>) {
    predicate Valid() {
      && (forall w :: w in keywords ==> IsIdentifier(w))
      && (forall w :: w in builtins ==> IsIdentifier(w))
    }
  }

  const BracketTokens: set<string> := {"(", ")", "{", "}", "[", "]"}
  const OperatorTokens: set<string> := {"+", "-", "*", "/", "%", "=", "<", ">"}

  predicate IsQuote(t: string) {
    t == "\"" || t == "'"
  }

  /** `peek_tok` at absolute index `k`: the token, or nothing past the end. */
  function PeekAt(ts: seq<Token>, k: nat): Option<Token> {
    if k < |ts| then Some(ts[k]) else None
  }

  /** The text of a peeked token; past the end, the sentinel's text "". */
  function PeekText(ts: seq<Token>, k: nat): (t: string)
    ensures t != [] ==> k < |ts| && t == ts[k].text
  {
    if k < |ts| then ts[k].text else ""
  }

  /** Index of the first token at or after `from` that is not all whitespace (or past the end). */
  function FirstNonSpace(ts: seq<Token>, from: nat): (k: nat)
    ensures from <= k
    ensures k == from || k <= |ts|
    ensures k < |ts| ==> !AllSpace(ts[k].text)
    ensures forall m :: from <= m < k ==> AllSpace(ts[m].text)
    decreases |ts| - from
  {
    if from >= |ts| || !AllSpace(ts[from].text) then from else FirstNonSpace(ts, from + 1)
  }

  /** Styles of the tokens that need no look-ahead, in the order they are tested (src/lexer.py:257-280). */
  function PlainStyle(p: Profile, t: string): (r: Style)
    ensures r in {Constants, Brackets, String, Types, Default}
  {
    if IsNumeric(t) || t == "self" then Constants
    else if t in BracketTokens then Brackets
    else if IsQuote(t) then String
    else if t in p.builtins || t in OperatorTokens then Types
    else Default
  }

  /** What one iteration of the loop emits, where it leaves the list and the string flag. */
  datatype Step = Step(runs: seq<Run>, next: nat, inString: bool)

  predicate IsIntroducer(t: string) {
    t == "class" || t == "def"
  }

  /** One iteration of the loop, for the token at index `i` (src/lexer.py:211-280). */
  function StepAt(p: Profile, ts: seq<Token>, i: nat, inString: bool): (st: Step)
    requires i < |ts|
    ensures i < st.next <= |ts|
    ensures 1 <= |st.runs| <= st.next - i
  {
    if inString then
      Step([Run(ts[i].size, String)], i + 1, !IsQuote(ts[i].text))
    else if IsIntroducer(ts[i].text) then
      DefinitionStep(ts, i)
    else
      OtherStep(p, ts, i)
  }

  /**
   * A `class` or `def` token outside a string (src/lexer.py:223-243): with a
   * name (and, for `class`, a `:` or `(` after it) the name is consumed too.
   */
  function DefinitionStep(ts: seq<Token>, i: nat): (st: Step)
    requires i < |ts| && IsIntroducer(ts[i].text)
    ensures i < st.next <= |ts| && !st.inString
    ensures 1 <= |st.runs| <= st.next - i
  {
    var k := FirstNonSpace(ts, i + 1);
    if ts[i].text == "class" then
      if IsIdentifier(PeekText(ts, k)) && PeekText(ts, FirstNonSpace(ts, k + 1)) in {":", "("} then
        Step([Run(ts[i].size, Keyword), Run(ts[k].size + 1, Classes)], k + 1, false)
      else
        Step([Run(ts[i].size, Keyword)], i + 1, false)
    else
      if IsIdentifier(PeekText(ts, k)) then
        Step([Run(ts[i].size, Keyword), Run(ts[k].size + 1, FunctionDef)], k + 1, false)
      else
        Step([Run(ts[i].size, Keyword)], i + 1, false)
  }

  /**
   * A `class` or `def` at `i` that takes a name: an identifier follows it past
   * whitespace tokens and, for `class`, a `:` or `(` follows the name
   * (src/lexer.py:223-243).
   */
  predicate NamesDefinition(ts: seq<Token>, i: nat)
    requires i < |ts|
  {
    var k := FirstNonSpace(ts, i + 1);
    IsIdentifier(PeekText(ts, k)) && (ts[i].text == "class" ==> PeekText(ts, FirstNonSpace(ts, k + 1)) in {":", "("})
  }

  /** `tok.strip() == "."` followed by an all-letter token (src/lexer.py:247). */
  predicate IsMemberAccess(ts: seq<Token>, i: nat)
    requires i < |ts|
  {
    Strip(ts[i].text) == "." && IsAlpha(PeekText(ts, i + 1))
  }

  /** Any other token outside a string (src/lexer.py:244-280). */
  function OtherStep(p: Profile, ts: seq<Token>, i: nat): (st: Step)
    requires i < |ts|
    ensures i < st.next <= |ts|
    ensures 1 <= |st.runs| <= st.next - i
  {
    var tok := ts[i];
    if tok.text in p.keywords then
      Step([Run(tok.size, Keyword)], i + 1, false)
    else if IsMemberAccess(ts, i) then
      var callee := if PeekText(ts, i + 2) == "(" then Functions else Default;
      Step([Run(tok.size, Default), Run(ts[i + 1].size, callee)], i + 2, false)
    else
      Step([Run(tok.size, PlainStyle(p, tok.text))], i + 1, IsQuote(tok.text))
  }

  /** The runs emitted from index `i` to the end of the list, starting with string flag `inString`. */
  function StyleFrom(p: Profile, ts: seq<Token>, i: nat, inString: bool): (rs: seq<Run>)
    ensures i < |ts| ==> 1 <= |rs| <= |ts| - i
    ensures i >= |ts| ==> rs == []
    decreases |ts| - i
  {
    if i >= |ts| then []
    else
      var st := StepAt(p, ts, i, inString);
      st.runs + StyleFrom(p, ts, st.next, st.inString)
  }

  lemma {:induction false} StyleFromUnfold(p: Profile, ts: seq<Token>, i: nat, inString: bool)
    requires i < |ts|
    ensures var st := StepAt(p, ts, i, inString);
      StyleFrom(p, ts, i, inString) == st.runs + StyleFrom(p, ts, st.next, st.inString)
  {
  }

  /** One step of the walk, as the loop of `StyleText` takes it. */
  lemma {:induction false} StyleFromAdvance(p: Profile, ts: seq<Token>, i: nat, inString: bool, st: Step, done: seq<Run>, all: seq<Run>)
    requires i < |ts| && st == StepAt(p, ts, i, inString)
    requires done + StyleFrom(p, ts, i, inString) == all
    ensures (done + st.runs) + StyleFrom(p, ts, st.next, st.inString) == all
  {
    StyleFromUnfold(p, ts, i, inString);
    assert done + (st.runs + StyleFrom(p, ts, st.next, st.inString)) == all;
  }

  /** The runs of a whole call: the walk starts outside any string. */
  function StyleTokens(p: Profile, ts: seq<Token>): seq<Run> {
    StyleFrom(p, ts, 0, false)
  }

  /**
   * `skip_spaces_peek(skip)`: the first non-whitespace token from relative
   * index `skip` on, without consuming, and one past its index. Indices are
   * absolute positions in `ts`.
   */
  method SkipSpacesPeek(ts: seq<Token>, skip: nat) returns (tok: Option<Token>, i: nat)
    ensures i == FirstNonSpace(ts, skip) + 1
    ensures tok == PeekAt(ts, i - 1)
  {
    i := skip;
    var text := " ";
    tok := None;
    while AllSpace(text)
      invariant skip <= i
      invariant i == skip ==> text == " "
      invariant i > skip ==> tok == PeekAt(ts, i - 1) && text == PeekText(ts, i - 1)
      invariant i - 1 <= skip || i - 1 <= |ts|
      invariant forall m :: skip <= m < i - 1 ==> AllSpace(ts[m].text)
      decreases AllSpace(text), |ts| + 1 - i
    {
      tok := PeekAt(ts, i);
      text := PeekText(ts, i);
      i := i + 1;
    }
    FirstNonSpaceIs(ts, skip, i - 1);
  }

  lemma {:induction false} FirstNonSpaceIs(ts: seq<Token>, from: nat, k: nat)
    requires from <= k
    requires k == from || k <= |ts|
    requires forall m :: from <= m < k ==> AllSpace(ts[m].text)
    requires k >= |ts| || !AllSpace(ts[k].text)
    ensures FirstNonSpace(ts, from) == k
    decreases k - from
  {
    if from < k {
      FirstNonSpaceIs(ts, from + 1, k);
    }
  }

  /**
   * `next_tok(skip)`: pops `skip` tokens (one when `skip` is 0) and returns
   * the last one popped, or nothing on an empty list. The list is the suffix
   * of `ts` from index `i`.
   */
  method NextTok(ts: seq<Token>, i: nat, skip: nat) returns (tok: Option<Token>, j: nat)
    requires i < |ts| ==> i + skip <= |ts|
    ensures i >= |ts| ==> tok == None && j == i
    ensures i < |ts| ==> j == i + (if skip == 0 then 1 else skip) && tok == Some(ts[j - 1])
  {
    if i >= |ts| {
      return None, i;
    }
    j := i;
    if skip != 0 {
      for n := 0 to skip - 1
        invariant j == i + n
      {
        if j < |ts| {
          j := j + 1;
        }
      }
    }
    tok := Some(ts[j]);
    j := j + 1;
  }

  /**
   * `styleText(start, end)` on the slice `text`; `previousStyle` is what the
   * host reports for the byte before `start`. Each `setStyling` call appends
   * one run to `runs`.
   */
  method StyleText(p: Profile, text: string, start: nat, previousStyle: int) returns (runs: seq<Run>)
    ensures runs == StyleTokens(p, Tokenize(text))
  {
    var tokens := Tokenize(text);
    var stringFlag := false;
    var commentFlag := false;
    if start > 0 {
      if previousStyle == Code(String) {
        stringFlag := false;
      } else if previousStyle == Code(Comments) {
        commentFlag := false;
      }
    }
    runs := StyleList(p, tokens, stringFlag);
  }

  /** The `while True` loop of `styleText` over the token list `tokens`, from string flag `stringFlag`. */
  method StyleList(p: Profile, tokens: seq<Token>, stringFlag: bool) returns (runs: seq<Run>)
    ensures runs == StyleFrom(p, tokens, 0, stringFlag)
  {
    var inString := stringFlag;
    runs := [];
    var i := 0;
    ghost var all := StyleFrom(p, tokens, 0, stringFlag);
    while true
      invariant i <= |tokens|
      invariant runs + StyleFrom(p, tokens, i, inString) == all
      decreases |tokens| - i
    {
      ghost var at, wasInString := i, inString;
      var current;
      current, i := NextTok(tokens, i, 0);
      if current.None? {
        break;
      }
      var emitted;
      emitted, i, inString := StyleToken(p, tokens, current.value, i, inString);
      StyleFromAdvance(p, tokens, at, wasInString, Step(emitted, i, inString), runs, all);
      runs := runs + emitted;
    }
  }

  /**
   * The body of the loop for the token `tok` just popped; `i` is the index
   * of the new head of the list. Returns the runs it hands to `setStyling`,
   * the index of the head afterwards and the new string flag.
   */
  method StyleToken(p: Profile, tokens: seq<Token>, tok: Token, i: nat, inString: bool)
    returns (emitted: seq<Run>, next: nat, stringFlag: bool)
    requires 0 < i <= |tokens| && tok == tokens[i - 1]
    ensures Step(emitted, next, stringFlag) == StepAt(p, tokens, i - 1, inString)
  {
    if inString {
      emitted, next, stringFlag := [Run(tok.size, String)], i, true;
      if IsQuote(tok.text) {
        stringFlag := false;
      }
    } else if IsIntroducer(tok.text) {
      emitted, next := StyleDefinition(tokens, tok, i);
      stringFlag := false;
    } else {
      emitted, next, stringFlag := StyleOther(p, tokens, tok, i);
    }
  }

  /** The loop body for a `class` or `def` token outside a string (src/lexer.py:223-243). */
  method StyleDefinition(tokens: seq<Token>, tok: Token, i: nat) returns (emitted: seq<Run>, next: nat)
    requires 0 < i <= |tokens| && tok == tokens[i - 1]
    requires IsIntroducer(tok.text)
    ensures Step(emitted, next, false) == DefinitionStep(tokens, i - 1)
  {
    next := i;
    if tok.text == "class" {
      var name, ni := SkipSpacesPeek(tokens, i);
      var bracOrColon, _ := SkipSpacesPeek(tokens, ni);
      var nameText := if name.Some? then name.value.text else "";
      var after := if bracOrColon.Some? then bracOrColon.value.text else "";
      if IsIdentifier(nameText) && after in {":", "("} {
        emitted := [Run(tok.size, Keyword)];
        var _, j := NextTok(tokens, i, ni - i);
        next := j;
        emitted := emitted + [Run(name.value.size + 1, Classes)];
      } else {
        emitted := [Run(tok.size, Keyword)];
      }
    } else {
      var name, ni := SkipSpacesPeek(tokens, i);
      var nameText := if name.Some? then name.value.text else "";
      if IsIdentifier(nameText) {
        emitted := [Run(tok.size, Keyword)];
        var _, j := NextTok(tokens, i, ni - i);
        next := j;
        emitted := emitted + [Run(name.value.size + 1, FunctionDef)];
      } else {
        emitted := [Run(tok.size, Keyword)];
      }
    }
  }

  /** The loop body for any other token outside a string (src/lexer.py:244-280). */
  method StyleOther(p: Profile, tokens: seq<Token>, tok: Token, i: nat)
    returns (emitted: seq<Run>, next: nat, stringFlag: bool)
    requires 0 < i <= |tokens| && tok == tokens[i - 1]
    ensures Step(emitted, next, stringFlag) == OtherStep(p, tokens, i - 1)
  {
    next, stringFlag := i, false;
    if tok.text in p.keywords {
      emitted := [Run(tok.size, Keyword)];
    } else if IsMemberAccess(tokens, i - 1) {
      emitted := [Run(tok.size, Default)];
      var member;
      member, next := NextTok(tokens, i, 0);
      var callee := if PeekText(tokens, next) == "(" then Functions else Default;
      emitted := emitted + [Run(member.value.size, callee)];
      assert emitted == [Run(tok.size, Default), Run(tokens[i].size, callee)];
    } else {
      var style;
      style, stringFlag := ClassifyPlain(p, tok.text);
      emitted := [Run(tok.size, style)];
    }
  }

  /**
   * The tests of src/lexer.py:257-280, in order, for a token that needs no
   * look-ahead: its style, and whether it opens a string.
   */
  method ClassifyPlain(p: Profile, text: string) returns (style: Style, opensString: bool)
    ensures style == PlainStyle(p, text)
    ensures opensString <==> style == String
  {
    opensString := false;
    if IsNumeric(text) || text == "self" {
      style := Constants;
    } else if text in BracketTokens {
      style := Brackets;
    } else if IsQuote(text) {
      style := String;
      opensString := true;
    } else if text in p.builtins || text in OperatorTokens {
      style := Types;
    } else {
      style := Default;
    }
  }
}
