# A verified model of the PyCustomLexer syntax highlighter

This project models the syntax highlighter `PyCustomLexer` of a small PyQt
code editor, plus the editor's file-suffix classifier. It covers four parts
of the highlighter:

- **Tokenizer** (`get_tokens`): splits a text slice with the pattern
  `[*]\/|\/[*]|\s+|\w+|\W` and pairs each token with its UTF-8 byte length.
- **Style engine** (`styleText`): one pass over the token list. It keeps a
  "this is a string" flag and peeks one or more tokens ahead. Each
  `setStyling(length, style)` call it makes becomes a run appended to the
  output.
- **Style naming**: the style codes 0..10 and `description`.
- **Theme loop** (`__init__`): turns the entries of a parsed `theme.json`
  into per-style colours, backgrounds and fonts. It reports unknown style
  names and skips them.

The suffix classifier maps `.py`, `.json` and `.txt` to a `FileType`.

Modules:

- `Wrappers` (wrappers.dfy): `Option`.
- `Chars` (chars.dfy): the character classes, `strip` and the UTF-8 length.
- `Styles` (styles.dfy): the style codes, `description` and the theme's style names.
- `Tokenizer` (tokenizer.dfy): `get_tokens`.
- `StyleEngine` (style_engine.dfy): `styleText`. It is specified step by step
  by `StepAt` and as a whole pass by `StyleFrom`. The methods `StyleText`,
  `StyleList`, `StyleToken`, `StyleDefinition`, `StyleOther`, `NextTok` and
  `SkipSpacesPeek` run the loop over an index into the token list. Each
  method is proved equal to its specification function.
- `StyleProperties` (style_properties.dfy): what the pass guarantees.
- `StyleExamples` (style_examples.dfy): all-inputs lemmas about typical
  headers and calls.
- `Theme` (theme.dfy): the theme loop as a fold, `ApplyEntries`. The class
  `Lexer` keeps the per-style settings and runs the loop itself in
  `ApplyTheme`.
- `FileTypes` (file_types.dfy): the suffix classifier.

Python's keyword list and its builtin function names are taken as two sets
of identifiers, in a `Profile`. A Python exception that escapes the theme
loop aborts the lexer's constructor. The model shows this as an outcome
whose `completed` flag is false. That outcome holds the settings made up to
the exception.

Points where the code's behaviour is easy to mistake, and that the model keeps:

- **No carry-over between calls.** A call to `styleText` reads the style
  before `start`, then sets both flags to false whichever branch it takes
  (src/lexer.py:177-182). So a string never continues from one call into the
  next. `StyleText` ensures the same runs for every previous style.
- **The class/def gap.** After a `class` or `def` that takes a name, the
  name's run is the name's length plus one (src/lexer.py:229, 239). The
  whitespace between is consumed whatever its length. So the runs cover the
  consumed bytes only when that gap is one byte. `StyleProperties.Coverage`
  assumes a one-byte gap after every `class` or `def` that takes a name, and
  `StyleExamples.FunctionHeaderGap` shows the shortfall for any gap.
- **Unknown font weight.** A weight name outside the table gives `None`,
  which the code passes to `QFont` without a report, and a missing weight
  does the same (src/lexer.py:106-110). In the Python code, only a list or
  object as the weight raises. What `QFont` does with a `None` weight is
  not modelled.
- **Malformed entries abort.** An entry that is not an object, an empty
  object, a style value that is not an object, or an unhashable font weight
  raises an exception that nothing catches (src/lexer.py:92-117). So does a
  document without `theme.syntax`.
- **No comment styling.** No COMMENTS run and no KEYARGS run is ever
  emitted (`StyleProperties.NoCommentsOrKeyArgs`).

## Model

| member | source | states |
|---|---|---|
| Chars.Utf8Width | src/lexer.py:156 | a character's UTF-8 encoding takes 1 to 4 bytes, and 1 exactly for ASCII |
| Chars.Utf8Len | src/lexer.py:156 | `len(bytearray(s, "utf-8"))` is between one and four bytes per character |
| Chars.Utf8LenAppend | src/lexer.py:156 | the UTF-8 length of a concatenation is the sum of the lengths |
| Chars.AsciiLen | src/lexer.py:156 | ASCII text has one byte per character |
| Chars.WordIsNotSpace | src/lexer.py:153 | a `\w` character is never `\s`, so the two classes cannot share a token |
| Chars.IsSpace | src/lexer.py:153 | `\s` and `str.isspace` of one character (a definition, no contract) |
| Chars.IsWord | src/lexer.py:153 | `\w` of one character (a definition, no contract) |
| Chars.IsAlpha | src/lexer.py:247 | `str.isalpha` (a definition, no contract) |
| Chars.IsNumeric | src/lexer.py:257 | `str.isnumeric` (a definition, no contract) |
| Chars.IsIdentifier | src/lexer.py:226 | `str.isidentifier` (a definition, no contract) |
| Chars.TrimStart | src/lexer.py:247 | `lstrip` (a definition; `TrimStartSpec` states it) |
| Chars.TrimEnd | src/lexer.py:247 | `rstrip` (a definition; `TrimEndSpec` states it) |
| Chars.Strip | src/lexer.py:247 | `strip` as `rstrip` after `lstrip` (a definition; `StripIsDot` states the test the lexer makes with it) |
| Chars.TrimStartSpec | src/lexer.py:247 | `lstrip` keeps a suffix, drops only whitespace and stops at the first other character |
| Chars.TrimEndSpec | src/lexer.py:247 | `rstrip` keeps a prefix, drops only whitespace and stops at the last other character |
| Chars.StripIsDot | src/lexer.py:247 | `tok.strip() == "."` exactly when the token is one dot and otherwise whitespace |
| Styles.Code | src/lexer.py:50-60 | every style code is between 0 and 10 |
| Styles.FromCode | src/lexer.py:50-60 | a code stands for a style exactly when it is in 0..10, and decodes to the style with that code |
| Styles.CodeRoundTrip | src/lexer.py:50-60 | decoding a style's code gives it back, and distinct styles have distinct codes |
| Styles.Label | src/lexer.py:123-148 | every style's description label (the string `description` returns for its code, "kWARGS" for KEYARGS) is non-empty |
| Styles.Description | src/lexer.py:123-148 | the name is non-empty exactly for codes 0..10, and is that style's label ("kWARGS" for 4); any other code gives "" |
| Styles.DescriptionInjective | src/lexer.py:123-148 | two codes with the same non-empty description are equal |
| Styles.StyleOfName | src/lexer.py:62-74 | a theme name selects a style exactly when it is one of the eleven valid names, and that style's name is the theme name |
| Styles.ThemeNamesCoverStyles | src/lexer.py:62-74 | every style has a valid theme name that selects it, and there are eleven names |
| Tokenizer.SpaceSpanSpec | src/lexer.py:153 | the `\s+` match is whitespace throughout and cannot be extended |
| Tokenizer.WordSpanSpec | src/lexer.py:153 | the `\w+` match is word characters throughout and cannot be extended |
| Tokenizer.MatchLength | src/lexer.py:153 | the first match of the pattern takes at least one character and no more than the text |
| Tokenizer.MatchLengthSpec | src/lexer.py:153 | the first match is a token shape (`*/`, `/*`, whitespace run, word run or one other character), and a whitespace or word match is maximal |
| Tokenizer.Tokenize | src/lexer.py:150-156 | `get_tokens`: at most one token per character, and no tokens exactly for the empty text |
| Tokenizer.TokenizeShapes | src/lexer.py:150-156 | every token is non-empty, has a token shape and has its UTF-8 length as its size; there are no tokens exactly when the text is empty |
| Tokenizer.TokenizeJoins | src/lexer.py:150-156 | the tokens joined back together give the text exactly |
| Tokenizer.TokenizeSize | src/lexer.py:150-156 | the token sizes add up to the text's UTF-8 length |
| Tokenizer.TokenizeMaximal | src/lexer.py:153-156 | no token could be extended by the one after it: whitespace and word runs are maximal, and a lone `*` token is never followed by `/`, nor a lone `/` by `*` |
| Tokenizer.TokensOf | src/lexer.py:156 | each piece paired with its UTF-8 length, one token per piece |
| Tokenizer.FirstMatch | src/lexer.py:153 | a token-shaped piece that the rest cannot extend is the first match |
| Tokenizer.TokenizePrefix | src/lexer.py:150-156 | such a piece is the first token, followed by the tokens of the rest |
| Tokenizer.TokenizeUnique | src/lexer.py:150-156 | any split of a text into token-shaped pieces, none extendable by the next, is its token list: the tokenization is unique |
| Tokenizer.TokenizeFirst | src/lexer.py:150-156 | the first token starts with the text's first character |
| StyleEngine.PeekText | src/lexer.py:194-198 | `peek_tok`: a non-empty text is the text of the token at that index; past the end the sentinel's "" |
| StyleEngine.FirstNonSpace | src/lexer.py:200-209 | the first token from `from` on that is not all whitespace, with only whitespace tokens before it |
| StyleEngine.SkipSpacesPeek | src/lexer.py:200-209 | `skip_spaces_peek` returns the first non-whitespace token (or none past the end) and the index one past it |
| StyleEngine.NextTok | src/lexer.py:184-192 | `next_tok(skip)` consumes `skip` tokens (at least one) and returns the last of them; at the end it returns none and consumes nothing |
| StyleEngine.IsQuote | src/lexer.py:219 | `tok == '"' or tok == "'"` (a definition, no contract) |
| StyleEngine.PlainStyle | src/lexer.py:257-280 | the plain tests give only CONSTANTS, BRACKETS, STRING, TYPES or DEFAULT (`StyleProperties.PlainStylePrecedence` states when each) |
| StyleEngine.NamesDefinition | src/lexer.py:223-243 | the test that decides whether a `class`/`def` takes a name (a definition; `DefinitionFallback` and `DefinitionNamed` state both outcomes) |
| StyleEngine.IsMemberAccess | src/lexer.py:247 | `tok.strip() == "."` and an all-letter next token (a definition; `StyleExamples.MemberStep` states the branch) |
| StyleEngine.StepAt | src/lexer.py:211-280 | one loop iteration consumes at least one token and emits between one run and one run per token consumed |
| StyleEngine.DefinitionStep | src/lexer.py:223-243 | a `class`/`def` iteration is never inside a string, consumes at least its keyword and emits one or two runs |
| StyleEngine.OtherStep | src/lexer.py:244-280 | any other iteration outside a string consumes at least one token and emits no more runs than tokens consumed |
| StyleEngine.StyleFrom | src/lexer.py:211-280 | the pass terminates and emits between one run and one run per token for a non-empty list, nothing for an empty one |
| StyleEngine.StyleFromUnfold | src/lexer.py:211-280 | the pass is one iteration followed by the pass from where that iteration leaves off |
| StyleEngine.StyleFromAdvance | src/lexer.py:211-221 | the loop invariant: the runs emitted so far followed by the remaining pass are the whole pass |
| StyleEngine.StyleText | src/lexer.py:158-182 | the runs of one call are those of the pass over the slice's tokens from outside a string, whatever the previous style was |
| StyleEngine.StyleList | src/lexer.py:211-280 | the `while True` loop emits exactly the runs of the pass |
| StyleEngine.StyleToken | src/lexer.py:215-280 | one loop body emits the runs, advances the index and sets the string flag as the iteration does |
| StyleEngine.StyleDefinition | src/lexer.py:223-243 | the `class`/`def` branch emits what the iteration does and leaves the string flag clear |
| StyleEngine.StyleOther | src/lexer.py:244-280 | the keyword, member-access and plain branches emit what the iteration does |
| StyleEngine.ClassifyPlain | src/lexer.py:257-280 | the tests in source order give the plain style, and the token opens a string exactly when it is styled STRING |
| StyleProperties.StepOneRunPerToken | src/lexer.py:211-280 | away from `class`/`def`, an iteration emits one run per consumed token, each of that token's byte length |
| StyleProperties.DefinitionFallback | src/lexer.py:223-243 | a `class`/`def` with no identifier after it, or a `class` whose name is not followed by `:` or `(`, is one KEYWORD run of its own length and the pass goes on with the next token |
| StyleProperties.DefinitionNamed | src/lexer.py:223-243 | at any index, a `class`/`def` that takes a name is a KEYWORD run, then CLASSES or FUNCTION_DEF of the name's length plus one, and the pass goes on after the name |
| StyleProperties.OneRunPerToken | src/lexer.py:184-280 | when no `class`/`def` takes a name, the pass emits exactly one run per token, of that token's byte length; this includes a `class`/`def` that takes no name, inside a string or not (one that would take a name is excluded even inside a string) |
| StyleProperties.LengthsMatch | src/lexer.py:156-280 | one run per token, each of the token's length, styles exactly the tokens' bytes |
| StyleProperties.DefinitionGap | src/lexer.py:223-243 | at any index, a `class`/`def` that takes a name styles the bytes it consumes less its whitespace gap plus one, so the runs cover those bytes exactly when the gap is one byte |
| StyleProperties.DefinitionCoverage | src/lexer.py:223-243 | with one-byte gaps, a `class`/`def` iteration styles exactly the bytes it consumes |
| StyleProperties.StepCoverage | src/lexer.py:211-280 | with one-byte gaps, every iteration styles exactly the bytes it consumes |
| StyleProperties.Coverage | src/lexer.py:211-280 | with one-byte gaps, the pass styles exactly the bytes of the tokens |
| StyleProperties.SliceCoverage | src/lexer.py:150-280 | with one-byte gaps, the runs of a call add up to the slice's UTF-8 length |
| StyleProperties.StepStyles | src/lexer.py:211-280 | no iteration emits a COMMENTS or KEYARGS run |
| StyleProperties.NoCommentsOrKeyArgs | src/lexer.py:211-280 | the pass never emits a COMMENTS or KEYARGS run |
| StyleProperties.CloseAfter | src/lexer.py:217-221 | the index just past the next quote token, or the end, with no quote before it |
| StyleProperties.StringRuns | src/lexer.py:218 | one STRING run per token, of that token's byte length |
| StyleProperties.StringStep | src/lexer.py:217-221 | inside a string a token is styled STRING, and the string stays open unless the token is a quote |
| StyleProperties.InsideString | src/lexer.py:217-221 | inside a string, every token up to and including the next quote of either kind is styled STRING, and the pass then goes on outside the string |
| StyleProperties.QuoteCloses | src/lexer.py:219-220 | a quote inside a string is styled STRING and closes it |
| StyleProperties.StringContinues | src/lexer.py:217-221 | any other token inside a string is styled STRING and the string goes on |
| StyleProperties.QuoteStep | src/lexer.py:263-266 | a quote outside a string is styled STRING and opens a string |
| StyleProperties.StringLiteral | src/lexer.py:217-266 | a quote outside a string and every token up to the next quote are styled STRING, and the pass then resumes outside the string |
| StyleProperties.KeywordStep | src/lexer.py:244-246 | at any index outside a string, a keyword other than `class`/`def` is one KEYWORD run, whatever follows it |
| StyleProperties.PlainStep | src/lexer.py:244-280 | at any index outside a string, a token that is not `class`/`def`, a keyword or a member access is one run of its plain style, and opens a string exactly when it is a quote |
| StyleProperties.PlainStylePrecedence | src/lexer.py:257-280 | each plain style is given exactly when its test holds and no earlier test does |
| StyleProperties.WhitespaceIsDefault | src/lexer.py:279-280 | a whitespace token outside a string is one DEFAULT run |
| StyleExamples.TokenizeTwo | src/lexer.py:150-156 | two separated token-shaped pieces are two tokens |
| StyleExamples.TokenizeThree | src/lexer.py:150-156 | three separated token-shaped pieces are three tokens |
| StyleExamples.TokenizeFour | src/lexer.py:150-156 | four separated token-shaped pieces are four tokens |
| StyleExamples.GapSeparates | src/lexer.py:153 | a word and a whitespace gap, and the gap and a non-space, are separate tokens |
| StyleExamples.DefTokens | src/lexer.py:150-156 | `def`, a whitespace gap and an identifier are three tokens |
| StyleExamples.DefStyles | src/lexer.py:234-240 | on those three tokens the pass emits KEYWORD for `def` and FUNCTION_DEF of the name's length plus one |
| StyleExamples.FunctionHeader | src/lexer.py:234-240 | `def<gap>name` is styled KEYWORD (3 bytes), then FUNCTION_DEF of the name's length plus one, for any whitespace gap |
| StyleExamples.FunctionHeaderGap | src/lexer.py:234-240 | the two runs fall short of the slice by the gap's length less one, so only a one-byte gap is fully styled |
| StyleExamples.ClassTokens | src/lexer.py:150-156 | `class`, a gap, an identifier and `:` are four tokens |
| StyleExamples.ColonStep | src/lexer.py:279-280 | a final `:` is one DEFAULT run |
| StyleExamples.ClassStep | src/lexer.py:223-230 | on those four tokens the `class` iteration emits KEYWORD and CLASSES of the name's length plus one, and stops before the `:` |
| StyleExamples.ClassStyles | src/lexer.py:223-280 | on those four tokens the pass emits KEYWORD, CLASSES and DEFAULT for the colon |
| StyleExamples.ClassHeader | src/lexer.py:223-230 | `class<gap>Name:` is styled KEYWORD (5 bytes), CLASSES of the name's length plus one, and DEFAULT for the colon |
| StyleExamples.CallTokens | src/lexer.py:150-156 | `obj.m(` is four tokens |
| StyleExamples.WordIsNotDot | src/lexer.py:247 | a word never strips to "." |
| StyleExamples.ReceiverStep | src/lexer.py:257-280 | a non-keyword receiver word is one run of its plain style and leaves the string flag clear |
| StyleExamples.MemberStep | src/lexer.py:247-256 | at any index outside a string, `.` and a letters-only word give DEFAULT for the dot, then FUNCTIONS for the word if `(` follows and DEFAULT otherwise, and the pass goes on after the word |
| StyleExamples.BracketStep | src/lexer.py:260-261 | a final `(` is one BRACKETS run |
| StyleExamples.ClassWithoutName | src/lexer.py:223-261 | `class (` is styled KEYWORD, DEFAULT for the space and BRACKETS |
| StyleExamples.CallStyles | src/lexer.py:247-261 | on the four tokens of `obj.m(`: receiver, DEFAULT dot, FUNCTIONS method, BRACKETS |
| StyleExamples.MethodCall | src/lexer.py:247-261 | `obj.m(` is styled receiver, DEFAULT dot, FUNCTIONS method of its byte length, BRACKETS |
| StyleExamples.AttributeTokens | src/lexer.py:150-156 | `obj.m` is three tokens |
| StyleExamples.AttributeStyles | src/lexer.py:247-256 | on the three tokens of `obj.m`, the dot and the attribute are DEFAULT |
| StyleExamples.AttributeAccess | src/lexer.py:247-256 | `obj.m` with nothing after it leaves the attribute DEFAULT |
| Theme.Get | src/lexer.py:108-111 | `dict.get` finds a value stored under the key, and finds none exactly when no member has that key |
| Theme.WeightOfName | src/lexer.py:76-86 | the weight table gives a weight exactly for its nine names, and that weight's name is the key |
| Theme.FontOf | src/lexer.py:106-111 | the family, size and italic are the values given, or none, 14 and false when absent; it has a weight exactly when the weight is one of the nine names, and that weight; a list or object as the weight raises |
| Theme.SyntaxEntries | src/lexer.py:91-92 | a document whose `theme.syntax` is a list gives that list's entries |
| Theme.LastValue | src/lexer.py:99 | the value of a pair with that property name after which no pair has that name, present exactly when some pair has that name |
| Theme.ApplyProp | src/lexer.py:99-117 | one property (a definition; `PropEffect` states it) |
| Theme.ApplyProps | src/lexer.py:99-117 | the inner loop, stopping at an exception (a definition; `PropsEffect`, `LastColorWins`, `LastPaperWins` and `OnlyActingKeys` state it) |
| Theme.ApplyEntry | src/lexer.py:92-117 | one outer iteration (a definition; `EntryEffect` and `EntryIgnoresDiagnostics` state it) |
| Theme.ApplyEntries | src/lexer.py:92-117 | the outer loop, stopping at an exception (a definition; `SkippedEntriesChangeNothing` and `SkippedEntriesReported` state it) |
| Theme.ApplyDocument | src/lexer.py:91-117 | the loop over `theme.syntax` (a definition; `Lexer.ApplyTheme` runs it) |
| Theme.PropEffect | src/lexer.py:99-117 | one property changes only its own style, prints at most one font error, changes nothing when it raises, ignores names other than color/paper/font, and sets the colour or background to its value; `font` with an object sets the style's font to the one the object describes, or raises where the weight is a list or object; `font` with any other value prints a font error and changes nothing |
| Theme.PropsEffect | src/lexer.py:99-117 | a style's properties change only that style and only append diagnostics, none about style names |
| Theme.EntryEffect | src/lexer.py:92-117 | an entry only appends diagnostics and reports a style name only when it is skipped |
| Theme.PropsIgnoreDiagnostics | src/lexer.py:99-117 | the settings a style's properties make do not depend on what was printed before |
| Theme.EntryIgnoresDiagnostics | src/lexer.py:92-117 | the settings an entry makes do not depend on what was printed before |
| Theme.SkippedEntriesChangeNothing | src/lexer.py:92-96 | skipping unknown names: the settings and completion are those of the list with the unknown entries removed, so all other entries are still applied |
| Theme.SkippedEntriesReported | src/lexer.py:94-96 | a loop that completes reports exactly the names of the skipped entries, in order |
| Theme.OnlyActingKeys | src/lexer.py:99-104 | only `color`, `paper` and `font` act: the result is the same with every other property removed |
| Theme.LastColorWins | src/lexer.py:100-101 | a completed style ends with the last `color` given, or its old colour if none |
| Theme.LastPaperWins | src/lexer.py:102-103 | a completed style ends with the last `paper` given, or its old background if none |
| Theme.UnknownStyleFallback | src/lexer.py:91-103 | a theme with the unknown style `foo` before a `keyword` entry completes, reports `foo` and sets the keyword colour |
| Theme.Lexer.constructor | src/lexer.py:35-37 | the defaults: colour `#abb2bf`, background `#282c34`, Consolas at 14, and no per-style settings |
| Theme.Lexer.ApplyTheme | src/lexer.py:91-117 | the loop leaves exactly the settings, diagnostics and completion of the fold over the document's entries |
| Theme.Lexer.ApplyStyle | src/lexer.py:99-117 | the inner loop leaves exactly the settings, diagnostics and completion of the fold over the style's properties |
| Theme.Lexer.ApplyProperty | src/lexer.py:100-117 | one property changes the state exactly as the fold's step does |
| FileTypes.Value | src/file_types.py:3-6 | `auto()` numbers the members 1 to 3 |
| FileTypes.GetFileType | src/file_types.py:9-16 | `.py` gives Python and `.json` gives Json, each exactly; every other suffix gives Other; a suffix in the table gives its entry |
| FileTypes.TableShape | src/file_types.py:3-13 | the members have distinct values, and the table has exactly the three keys `.py`, `.json`, `.txt` |
| FileTypes.ExactSuffixes | src/file_types.py:9-16 | `.py`, `.json` and `.txt` map to Python, Json and Other; `.PY` and `""` give Other |

## Left out

- Word, letter, digit and identifier characters are ASCII only. Python's `\w`, `isalpha`, `isnumeric` and `isidentifier` also accept other Unicode letters and digits. Whitespace is Python's full whitespace set.
- A `char` is a Unicode scalar value, so lone surrogates, which Python's UTF-8 encoder rejects, cannot occur.
- The slice is a parameter of `StyleText`. The widget text fetch (src/lexer.py:166) and its character-index versus byte-index mismatch are not modelled.
- The `SendScintilla` query of the previous style (src/lexer.py:178) is a parameter. Its value cannot change the result.
- `startStyling` and `setStyling` are modelled as the returned run list. The host's styling cursor is not modelled.
- `comment_flag` is set but never read, so the model keeps it only as a local.
- Reading `theme.json` from disk (src/lexer.py:88-89) and JSON parsing are left out. The theme loop takes the parsed document.
- JSON numbers are integers, and an object's keys are taken as distinct, as a Python dict's are.
- Colours and fonts are opaque. `QColor` and `QFont` are not built. Any `TypeError` they would raise for values of the wrong type is not modelled. A colour is the JSON value given, and a font is its four arguments.
- The printed messages are modelled as a list of diagnostics, not as text.
- The inner loop of the theme loop, and one property, are the methods `ApplyStyle` and `ApplyProperty` rather than code inline in one loop.
- StyleProperties.OneRunPerToken: the requires also rules out a `class`/`def` that would take a name but sits inside a string, where the code still emits one run per token; the requires does not track the string flag.
- StyleProperties.Coverage: the one-byte gap is also assumed for a `class`/`def` inside a string, where the code styles every byte whatever the gap.
- StyleProperties.DefinitionCoverage: the one-byte gap is assumed for every `class`/`def` in the list that takes a name, including those inside a string, though the step at `i` needs it only at `i`; `DefinitionGap` states the step without it.
- StyleProperties.StepCoverage: the one-byte gap is also assumed for a `class`/`def` inside a string, where the code styles every byte whatever the gap.
- StyleProperties.SliceCoverage: the one-byte gap is also assumed for a `class`/`def` inside a string, where the code styles every byte whatever the gap.
- `language`, `setDefault*` beyond the constructor's values, and the rest of the editor are not part of this model. This covers window assembly, the Scintilla widget, the file tree, the fuzzy searcher and autocompletion.
