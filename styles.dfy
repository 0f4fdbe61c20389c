/**
 * The lexer's style codes (src/lexer.py:50-60), their `description` names
 * (src/lexer.py:123-148) and the style names a theme file may use
 * (src/lexer.py:62-74).
 */
module Styles {
  import opened Wrappers

  datatype Style =
    | Default | Keyword | Types | String | KeyArgs | Brackets
    | Comments | Constants | Functions | Classes | FunctionDef

  /** The integer the host stores per byte for each style. */
  function Code(s: Style): (n: int)
    ensures 0 <= n <= 10
  {
    match s
    case Default => 0
    case Keyword => 1
    case Types => 2
    case String => 3
    case KeyArgs => 4
    case Brackets => 5
    case Comments => 6
    case Constants => 7
    case Functions => 8
    case Classes => 9
    case FunctionDef => 10
  }

  /** The style a stored code stands for, if any. */
  function FromCode(n: int): (r: Option<Style>)
    ensures r.Some? <==> 0 <= n <= 10
    ensures r.Some? ==> Code(r.value) == n
  {
    if n == 0 then Some(Default)
    else if n == 1 then Some(Keyword)
    else if n == 2 then Some(Types)
    else if n == 3 then Some(String)
    else if n == 4 then Some(KeyArgs)
    else if n == 5 then Some(Brackets)
    else if n == 6 then Some(Comments)
    else if n == 7 then Some(Constants)
    else if n == 8 then Some(Functions)
    else if n == 9 then Some(Classes)
    else if n == 10 then Some(FunctionDef)
    else None
  }

  /** Distinct styles get distinct codes, and every code decodes back to its style. */
  lemma {:induction false} CodeRoundTrip(s: Style, t: Style)
    ensures FromCode(Code(s)) == Some(s)
    ensures Code(s) == Code(t) ==> s == t
  {
  }

  /** The label each style is given for diagnostics; `KeyArgs` is labelled "kWARGS". */
  function Label(s: Style): (r: string)
    ensures r != ""
  {
    match s
    case Default => "DEFAULT"
    case Keyword => "KEYWORD"
    case Types => "TYPES"
    case String => "STRING"
    case KeyArgs => "kWARGS"
    case Brackets => "BRACKETS"
    case Comments => "COMMENTS"
    case Constants => "CONSTANTS"
    case Functions => "FUNCTIONS"
    case Classes => "CLASSES"
    case FunctionDef => "FUNCTION_DEF"
  }

  /** `description(style)`: the if/elif table over the integer codes, "" for any other integer. */
  function Description(style: int): (r: string)
    ensures r != "" <==> 0 <= style <= 10
    ensures 0 <= style <= 10 ==> r == Label(FromCode(style).value)
  {
    if style == 0 then "DEFAULT"
    else if style == 1 then "KEYWORD"
    else if style == 2 then "TYPES"
    else if style == 3 then "STRING"
    else if style == 4 then "kWARGS"
    else if style == 5 then "BRACKETS"
    else if style == 6 then "COMMENTS"
    else if style == 7 then "CONSTANTS"
    else if style == 8 then "FUNCTIONS"
    else if style == 9 then "CLASSES"
    else if style == 10 then "FUNCTION_DEF"
    else ""
  }

  /** No two codes share a description, so the description identifies the style. */
  lemma {:induction false} DescriptionInjective(m: int, n: int)
    requires Description(m) != ""
    ensures Description(m) == Description(n) ==> m == n
  {
  }

  /** The style names accepted in a theme file, in the source's order. */
  const ThemeNames: seq<string> := [
    "default", "keyword", "classes", "functions", "function_def", "string",
    "types", "keyargs", "brackets", "comments", "constants"
  ]

  /** The theme name of a style: its attribute name in lower case. */
  function ThemeName(s: Style): string {
    match s
    case Default => "default"
    case Keyword => "keyword"
    case Types => "types"
    case String => "string"
    case KeyArgs => "keyargs"
    case Brackets => "brackets"
    case Comments => "comments"
    case Constants => "constants"
    case Functions => "functions"
    case Classes => "classes"
    case FunctionDef => "function_def"
  }

  /**
   * The membership test against the valid names followed by
   * `getattr(self, name.upper())`: the style a theme name selects.
   */
  function StyleOfName(name: string): (r: Option<Style>)
    ensures r.Some? <==> name in ThemeNames
    ensures r.Some? ==> ThemeName(r.value) == name
  {
    if name !in ThemeNames then None
    else if name == "default" then Some(Default)
    else if name == "keyword" then Some(Keyword)
    else if name == "classes" then Some(Classes)
    else if name == "functions" then Some(Functions)
    else if name == "function_def" then Some(FunctionDef)
    else if name == "string" then Some(String)
    else if name == "types" then Some(Types)
    else if name == "keyargs" then Some(KeyArgs)
    else if name == "brackets" then Some(Brackets)
    else if name == "comments" then Some(Comments)
    else Some(Constants)
  }

  /** Every style can be themed: the eleven names are exactly the eleven styles. */
  lemma {:induction false} ThemeNamesCoverStyles(s: Style)
    ensures ThemeName(s) in ThemeNames
    ensures StyleOfName(ThemeName(s)) == Some(s)
    ensures |ThemeNames| == 11
  {
  }
}
