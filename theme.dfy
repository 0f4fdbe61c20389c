/**
 * The theme loop of the lexer's constructor (src/lexer.py:62-117): the
 * parsed `theme.json` document is walked entry by entry, and each entry
 * `{style_name: {color|paper|font: ...}}` sets the colour, background or
 * font of one style. Unknown style names are reported and skipped.
 *
 * `ApplyEntries` and its helpers specify the loop as a fold; the class
 * `Lexer` holds the per-style settings the host keeps and runs the loop
 * itself in `ApplyTheme`. An uncaught Python exception, which aborts the
 * constructor, is an outcome whose `completed` is false.
 */
module Theme {
  import opened Wrappers
  import opened Styles

  /** A parsed JSON value; an object keeps its members in document order, with distinct keys. */
  datatype Json =
    | JNull
    | JBool(b: bool)
    | JNum(n: int)
    | JStr(s: string)
    | JArr(items: seq<Json>)
    | JObj(members: seq<(string, Json)>)

  /** Values Python cannot use as a dictionary key: `dict.get` on them raises `TypeError`. */
  predicate Unhashable(v: Json) {
    v.JArr? || v.JObj?
  }

  /** `d.get(key)` on an object's members: the value stored under `key`, if any. */
  function Get(ms: seq<(string, Json)>, key: string): (r: Option<Json>)
    ensures r.Some? ==> (key, r.value) in ms
    ensures r.None? <==> forall i :: 0 <= i < |ms| ==> ms[i].0 != key
  {
    if ms == [] then None
    else if ms[0].0 == key then Some(ms[0].1)
    else Get(ms[1..], key)
  }

  /** The nine entries of the lexer's `font_weights` table. */
  datatype Weight = Thin | ExtraLight | Light | Normal | Medium | DemiBold | Bold | ExtraBold | Black

  /** The key under which a weight is listed in the table. */
  function WeightName(w: Weight): string {
    match w
    case Thin => "thin"
    case ExtraLight => "extralight"
    case Light => "light"
    case Normal => "normal"
    case Medium => "medium"
    case DemiBold => "demibold"
    case Bold => "bold"
    case ExtraBold => "extrabold"
    case Black => "black"
  }

  /** `font_weights.get(name)`: a weight exactly when `name` is one of the nine keys. */
  function WeightOfName(name: string): (r: Option<Weight>)
    ensures r.Some? ==> WeightName(r.value) == name
    ensures r.None? ==> forall w :: WeightName(w) != name
  {
    if name == "thin" then Some(Thin)
    else if name == "extralight" then Some(ExtraLight)
    else if name == "light" then Some(Light)
    else if name == "normal" then Some(Normal)
    else if name == "medium" then Some(Medium)
    else if name == "demibold" then Some(DemiBold)
    else if name == "bold" then Some(Bold)
    else if name == "extrabold" then Some(ExtraBold)
    else if name == "black" then Some(Black)
    else None
  }

  /**
   * The arguments of one `QFont(family, size, weight, italic)` call. The
   * colour and font objects themselves are the host's: family, size and
   * italic are kept as the JSON values handed over, and `weight` is `None`
   * where the table lookup gave `None`.
   */
  datatype Font = Font(family: Json, size: Json, weight: Option<Weight>, italic: Json)

  /**
   * The font an object value `{family, font-size, font-weight, italic}`
   * describes: size 14, italic false and no family by default. A missing
   * weight looks up `QFont.Normal`, which is not a key of the table, so it
   * yields no weight, as an unknown name does; a list or object as weight
   * raises `TypeError`, which nothing catches.
   */
  function FontOf(ms: seq<(string, Json)>): (r: Option<Font>)
    ensures r.None? <==> Get(ms, "font-weight").Some? && Unhashable(Get(ms, "font-weight").value)
    ensures r.Some? ==> r.value.family == Get(ms, "family").GetOr(JNull)
    ensures r.Some? && Get(ms, "font-size").None? ==> r.value.size == JNum(14)
    ensures r.Some? && Get(ms, "italic").None? ==> r.value.italic == JBool(false)
    ensures r.Some? ==> r.value.size == Get(ms, "font-size").GetOr(JNum(14)) && r.value.italic == Get(ms, "italic").GetOr(JBool(false))
    ensures r.Some? ==> (r.value.weight.Some? <==> exists w :: Get(ms, "font-weight") == Some(JStr(WeightName(w))))
    ensures r.Some? && r.value.weight.Some? ==> Get(ms, "font-weight") == Some(JStr(WeightName(r.value.weight.value)))
  {
    var w := Get(ms, "font-weight");
    if w.Some? && Unhashable(w.value) then None
    else
      var weight := if w.Some? && w.value.JStr? then WeightOfName(w.value.s) else None;
      Some(Font(Get(ms, "family").GetOr(JNull), Get(ms, "font-size").GetOr(JNum(14)), weight, Get(ms, "italic").GetOr(JBool(false))))
  }

  /** The per-style settings the host keeps: colour, background (paper) and font. */
  datatype Settings = Settings(color: map<Style, Json>, paper: map<Style, Json>, font: map<Style, Font>)

  /** What the loop prints: an unknown style name, or an `AttributeError` caught while building a font. */
  datatype Diagnostic = InvalidStyleName(name: string) | FontError(style: Style)

  /** The settings and printed diagnostics after some entries, and whether no exception escaped. */
  datatype Outcome = Outcome(settings: Settings, diagnostics: seq<Diagnostic>, completed: bool)

  /** The settings of every style but `s` are the same in `a` and `b`. */
  predicate OnlyStyle(a: Settings, b: Settings, s: Style) {
    && a.color - {s} == b.color - {s}
    && a.paper - {s} == b.paper - {s}
    && a.font - {s} == b.font - {s}
  }

  /** `d` is a prefix of `e`: diagnostics are only ever appended. */
  predicate Extends(d: seq<Diagnostic>, e: seq<Diagnostic>) {
    |d| <= |e| && e[..|d|] == d
  }

  /** The property names the loop acts on; every other name is passed over. */
  const ActingKeys: set<string> := {"color", "paper", "font"}

  /**
   * One `k, v` pair of a style's object: `color` and `paper` set that
   * style's colour or background, `font` its font. A `font` value that is
   * not an object fails in `v.get` with a caught `AttributeError`.
   */
  function ApplyProp(st: Settings, d: seq<Diagnostic>, s: Style, k: string, v: Json): Outcome {
    if k == "color" then Outcome(st.(color := st.color[s := v]), d, true)
    else if k == "paper" then Outcome(st.(paper := st.paper[s := v]), d, true)
    else if k == "font" then
      if !v.JObj? then Outcome(st, d + [FontError(s)], true)
      else match FontOf(v.members)
        case None => Outcome(st, d, false)
        case Some(f) => Outcome(st.(font := st.font[s := f]), d, true)
    else Outcome(st, d, true)
  }

  /** The inner loop over one style's properties, in order, stopping at an exception. */
  function ApplyProps(st: Settings, d: seq<Diagnostic>, s: Style, props: seq<(string, Json)>): Outcome
    decreases |props|
  {
    if props == [] then Outcome(st, d, true)
    else
      var o := ApplyProp(st, d, s, props[0].0, props[0].1);
      if !o.completed then o else ApplyProps(o.settings, o.diagnostics, s, props[1..])
  }

  /** The style name an entry is keyed by: `list(clr.keys())[0]`. */
  function EntryName(clr: Json): string
    requires clr.JObj? && clr.members != []
  {
    clr.members[0].0
  }

  /** An entry that is reported and skipped: an object whose first key is not a style name. */
  predicate Skipped(clr: Json) {
    clr.JObj? && clr.members != [] && StyleOfName(EntryName(clr)).None?
  }

  /**
   * One iteration of the outer loop. An entry that is not an object, an
   * empty object, or a style whose value is not an object raises an
   * exception (`AttributeError`, `IndexError`) that nothing catches.
   */
  function ApplyEntry(st: Settings, d: seq<Diagnostic>, clr: Json): Outcome {
    if !clr.JObj? || clr.members == [] then Outcome(st, d, false)
    else match StyleOfName(EntryName(clr))
      case None => Outcome(st, d + [InvalidStyleName(EntryName(clr))], true)
      case Some(s) =>
        var body := clr.members[0].1;
        if !body.JObj? then Outcome(st, d, false) else ApplyProps(st, d, s, body.members)
  }

  /** The outer loop over the theme's entries, from outcome `o`, stopping at an exception. */
  function ApplyEntries(o: Outcome, es: seq<Json>): Outcome
    decreases |es|
  {
    if !o.completed || es == [] then o
    else ApplyEntries(ApplyEntry(o.settings, o.diagnostics, es[0]), es[1..])
  }

  /**
   * `theme_json["theme"]["syntax"]` and what `for clr in ...` iterates over:
   * a list's items, an object's keys, a string's characters. Indexing
   * anything but an object by a name, a missing key, or iterating a number,
   * a boolean or null raises an exception.
   */
  function SyntaxEntries(doc: Json): (r: Option<seq<Json>>)
    ensures r.Some? ==> doc.JObj? && Get(doc.members, "theme").Some? && Get(doc.members, "theme").value.JObj?
    ensures doc.JObj? && Get(doc.members, "theme").Some? && Get(doc.members, "theme").value.JObj?
      && Get(Get(doc.members, "theme").value.members, "syntax").Some?
      && Get(Get(doc.members, "theme").value.members, "syntax").value.JArr?
      ==> r == Some(Get(Get(doc.members, "theme").value.members, "syntax").value.items)
  {
    if !doc.JObj? then None
    else match Get(doc.members, "theme")
      case None => None
      case Some(theme) =>
        if !theme.JObj? then None
        else match Get(theme.members, "syntax")
          case None => None
          case Some(JArr(items)) => Some(items)
          case Some(JObj(ms)) => Some(seq(|ms|, i requires 0 <= i < |ms| => JStr(ms[i].0)))
          case Some(JStr(text)) => Some(seq(|text|, i requires 0 <= i < |text| => JStr([text[i]])))
          case Some(_) => None
  }

  /** The whole theme loop over a parsed document, from settings `st` and diagnostics `d`. */
  function ApplyDocument(st: Settings, d: seq<Diagnostic>, doc: Json): Outcome {
    match SyntaxEntries(doc)
    case None => Outcome(st, d, false)
    case Some(es) => ApplyEntries(Outcome(st, d, true), es)
  }

  /** The names of the unknown-style reports among `ds`, in order. */
  function InvalidNames(ds: seq<Diagnostic>): seq<string> {
    if ds == [] then []
    else
      var last := ds[|ds| - 1];
      InvalidNames(ds[..|ds| - 1]) + (if last.InvalidStyleName? then [last.name] else [])
  }

  /** The first keys of the skipped entries among `es`, in order. */
  function SkippedNames(es: seq<Json>): seq<string> {
    if es == [] then []
    else (if Skipped(es[0]) then [EntryName(es[0])] else []) + SkippedNames(es[1..])
  }

  /** `es` with the skipped entries left out. */
  function Kept(es: seq<Json>): seq<Json> {
    if es == [] then []
    else (if Skipped(es[0]) then [] else [es[0]]) + Kept(es[1..])
  }

  /** The value of the last `(k, v)` pair of `props` whose name is `k`. */
  function LastValue(props: seq<(string, Json)>, k: string): (r: Option<Json>)
    ensures r.Some? ==> (k, r.value) in props
    ensures r.None? <==> forall i :: 0 <= i < |props| ==> props[i].0 != k
    ensures r.Some? ==> exists i :: 0 <= i < |props| && props[i] == (k, r.value) && forall j :: i < j < |props| ==> props[j].0 != k
  {
    if props == [] then None
    else
      var rest := LastValue(props[1..], k);
      if rest.Some? then rest
      else if props[0].0 == k then Some(props[0].1)
      else None
  }

  /**
   * One property touches only its own style's settings and prints at most
   * one font diagnostic; an exception leaves everything as it was, and a
   * name other than `color`, `paper` and `font` changes nothing. A `font`
   * object sets the style's font to the one it describes, or raises where
   * `FontOf` has none; any other `font` value is reported and changes nothing.
   */
  lemma {:induction false} PropEffect(st: Settings, d: seq<Diagnostic>, s: Style, k: string, v: Json)
    ensures var r := ApplyProp(st, d, s, k, v);
      && OnlyStyle(st, r.settings, s)
      && (r.diagnostics == d || r.diagnostics == d + [FontError(s)])
      && (!r.completed ==> r.settings == st && r.diagnostics == d)
      && (k !in ActingKeys ==> r == Outcome(st, d, true))
      && r.settings.color == (if k == "color" then st.color[s := v] else st.color)
      && r.settings.paper == (if k == "paper" then st.paper[s := v] else st.paper)
      && (k != "font" ==> r.settings.font == st.font)
      && (k == "font" && !v.JObj? ==> r == Outcome(st, d + [FontError(s)], true))
      && (k == "font" && v.JObj? ==> r.diagnostics == d && (r.completed <==> FontOf(v.members).Some?))
      && (k == "font" && v.JObj? && FontOf(v.members).Some? ==> r.settings.font == st.font[s := FontOf(v.members).value])
  {
    if k == "font" && v.JObj? {
      match FontOf(v.members)
      case None =>
      case Some(f) =>
        assert st.font[s := f] - {s} == st.font - {s};
    }
  }

  /**
   * A style's properties touch only that style's settings, and the inner
   * loop only appends diagnostics, none of them about style names.
   */
  lemma {:induction false} PropsEffect(st: Settings, d: seq<Diagnostic>, s: Style, props: seq<(string, Json)>)
    ensures var r := ApplyProps(st, d, s, props);
      OnlyStyle(st, r.settings, s) && Extends(d, r.diagnostics) && InvalidNames(r.diagnostics) == InvalidNames(d)
    decreases |props|
  {
    if props != [] {
      var o := ApplyProp(st, d, s, props[0].0, props[0].1);
      PropEffect(st, d, s, props[0].0, props[0].1);
      if o.completed {
        PropsEffect(o.settings, o.diagnostics, s, props[1..]);
        if o.diagnostics != d {
          InvalidNamesFontError(d, s);
        }
      }
    }
  }

  /** An entry only appends diagnostics, and reports a style name only when it is skipped. */
  lemma {:induction false} EntryEffect(st: Settings, d: seq<Diagnostic>, clr: Json)
    ensures var r := ApplyEntry(st, d, clr);
      Extends(d, r.diagnostics) && (!Skipped(clr) ==> InvalidNames(r.diagnostics) == InvalidNames(d))
  {
    if clr.JObj? && clr.members != [] && StyleOfName(EntryName(clr)).Some? && clr.members[0].1.JObj? {
      PropsEffect(st, d, StyleOfName(EntryName(clr)).value, clr.members[0].1.members);
    }
  }

  lemma {:induction false} InvalidNamesFontError(d: seq<Diagnostic>, s: Style)
    ensures InvalidNames(d + [FontError(s)]) == InvalidNames(d)
  {
    assert (d + [FontError(s)])[..|d|] == d;
  }

  lemma {:induction false} InvalidNamesReport(d: seq<Diagnostic>, name: string)
    ensures InvalidNames(d + [InvalidStyleName(name)]) == InvalidNames(d) + [name]
  {
    assert (d + [InvalidStyleName(name)])[..|d|] == d;
  }

  /**
   * The property loop depends on the diagnostics printed so far only by
   * appending to them: its settings and its completion are the same from
   * any diagnostics.
   */
  lemma {:induction false} PropsIgnoreDiagnostics(st: Settings, d: seq<Diagnostic>, e: seq<Diagnostic>, s: Style, props: seq<(string, Json)>)
    ensures ApplyProps(st, d, s, props).settings == ApplyProps(st, e, s, props).settings
    ensures ApplyProps(st, d, s, props).completed == ApplyProps(st, e, s, props).completed
    decreases |props|
  {
    if props != [] {
      var (k, v) := props[0];
      var o, p := ApplyProp(st, d, s, k, v), ApplyProp(st, e, s, k, v);
      assert o.settings == p.settings && o.completed == p.completed by {
        if k == "font" && v.JObj? {
          match FontOf(v.members)
          case None =>
          case Some(f) =>
        }
      }
      if o.completed {
        PropsIgnoreDiagnostics(o.settings, o.diagnostics, p.diagnostics, s, props[1..]);
      }
    }
  }

  /** The same for one entry. */
  lemma {:induction false} EntryIgnoresDiagnostics(st: Settings, d: seq<Diagnostic>, e: seq<Diagnostic>, clr: Json)
    ensures ApplyEntry(st, d, clr).settings == ApplyEntry(st, e, clr).settings
    ensures ApplyEntry(st, d, clr).completed == ApplyEntry(st, e, clr).completed
  {
    if clr.JObj? && clr.members != [] && StyleOfName(EntryName(clr)).Some? && clr.members[0].1.JObj? {
      PropsIgnoreDiagnostics(st, d, e, StyleOfName(EntryName(clr)).value, clr.members[0].1.members);
    }
  }

  /**
   * An entry keyed by an unknown name is skipped: the loop sets exactly
   * what it sets on the list without such entries, and an exception
   * escapes from both or from neither.
   */
  lemma {:induction false} SkippedEntriesChangeNothing(st: Settings, d: seq<Diagnostic>, e: seq<Diagnostic>, es: seq<Json>)
    ensures ApplyEntries(Outcome(st, d, true), es).settings == ApplyEntries(Outcome(st, e, true), Kept(es)).settings
    ensures ApplyEntries(Outcome(st, d, true), es).completed == ApplyEntries(Outcome(st, e, true), Kept(es)).completed
    decreases |es|
  {
    if es != [] {
      var o := ApplyEntry(st, d, es[0]);
      if Skipped(es[0]) {
        assert Kept(es) == Kept(es[1..]);
        SkippedEntriesChangeNothing(st, o.diagnostics, e, es[1..]);
      } else {
        var ks := Kept(es);
        assert ks[0] == es[0] && ks[1..] == Kept(es[1..]);
        var p := ApplyEntry(st, e, es[0]);
        EntryIgnoresDiagnostics(st, d, e, es[0]);
        if o.completed {
          SkippedEntriesChangeNothing(o.settings, o.diagnostics, p.diagnostics, es[1..]);
        }
      }
    }
  }

  /**
   * When the loop finishes, it has reported exactly the names of the
   * skipped entries, in order, as unknown styles.
   */
  lemma {:induction false} SkippedEntriesReported(o: Outcome, es: seq<Json>)
    requires o.completed
    ensures ApplyEntries(o, es).completed ==>
      InvalidNames(ApplyEntries(o, es).diagnostics) == InvalidNames(o.diagnostics) + SkippedNames(es)
    decreases |es|
  {
    if es != [] {
      var next := ApplyEntry(o.settings, o.diagnostics, es[0]);
      EntryEffect(o.settings, o.diagnostics, es[0]);
      if next.completed {
        SkippedEntriesReported(next, es[1..]);
        if Skipped(es[0]) {
          InvalidNamesReport(o.diagnostics, EntryName(es[0]));
        }
      }
    }
  }

  /** Only `color`, `paper` and `font` act: the loop does the same with every other property left out. */
  lemma {:induction false} OnlyActingKeys(st: Settings, d: seq<Diagnostic>, s: Style, props: seq<(string, Json)>)
    ensures ApplyProps(st, d, s, props) == ApplyProps(st, d, s, Acting(props))
    decreases |props|
  {
    if props != [] {
      var o := ApplyProp(st, d, s, props[0].0, props[0].1);
      PropEffect(st, d, s, props[0].0, props[0].1);
      var xs := Acting(props);
      if props[0].0 in ActingKeys {
        assert xs != [] && xs[0] == props[0] && xs[1..] == Acting(props[1..]);
        if o.completed {
          OnlyActingKeys(o.settings, o.diagnostics, s, props[1..]);
        }
      } else {
        assert xs == Acting(props[1..]);
        OnlyActingKeys(st, d, s, props[1..]);
      }
    }
  }

  /** The properties of `props` whose name is one the loop acts on, in order. */
  function Acting(props: seq<(string, Json)>): seq<(string, Json)> {
    if props == [] then []
    else (if props[0].0 in ActingKeys then [props[0]] else []) + Acting(props[1..])
  }

  /**
   * When a style's properties are applied without an exception, its colour
   * is the last `color` value given, and stays as it was when none is given.
   */
  lemma {:induction false} LastColorWins(st: Settings, d: seq<Diagnostic>, s: Style, props: seq<(string, Json)>)
    ensures var r := ApplyProps(st, d, s, props);
      r.completed ==> r.settings.color == SetLast(st.color, s, LastValue(props, "color"))
    decreases |props|
  {
    if props != [] {
      var o := ApplyProp(st, d, s, props[0].0, props[0].1);
      PropEffect(st, d, s, props[0].0, props[0].1);
      if o.completed {
        LastColorWins(o.settings, o.diagnostics, s, props[1..]);
        LastStep(st.color, o.settings.color, s, props, "color");
      }
    }
  }

  /** The same for the background (`paper`). */
  lemma {:induction false} LastPaperWins(st: Settings, d: seq<Diagnostic>, s: Style, props: seq<(string, Json)>)
    ensures var r := ApplyProps(st, d, s, props);
      r.completed ==> r.settings.paper == SetLast(st.paper, s, LastValue(props, "paper"))
    decreases |props|
  {
    if props != [] {
      var o := ApplyProp(st, d, s, props[0].0, props[0].1);
      PropEffect(st, d, s, props[0].0, props[0].1);
      if o.completed {
        LastPaperWins(o.settings, o.diagnostics, s, props[1..]);
        LastStep(st.paper, o.settings.paper, s, props, "paper");
      }
    }
  }

  /** `m` with `s` set to the value found, if one was. */
  function SetLast(m: map<Style, Json>, s: Style, v: Option<Json>): map<Style, Json> {
    if v.Some? then m[s := v.value] else m
  }

  /** Setting by the first pair and then by the last of the rest is setting by the last of all. */
  lemma {:induction false} LastStep(m: map<Style, Json>, m1: map<Style, Json>, s: Style, props: seq<(string, Json)>, k: string)
    requires props != []
    requires m1 == if props[0].0 == k then m[s := props[0].1] else m
    ensures SetLast(m1, s, LastValue(props[1..], k)) == SetLast(m, s, LastValue(props, k))
  {
    var rest := LastValue(props[1..], k);
    if rest.Some? && props[0].0 == k {
      assert m[s := props[0].1][s := rest.value] == m[s := rest.value];
    }
  }

  /**
   * A theme whose first entry names the unknown style `foo` still loads:
   * `foo` is reported, and the `keyword` entry after it is applied.
   */
  lemma {:induction false} UnknownStyleFallback()
    ensures var foo := JObj([("foo", JObj([("color", JStr("#ffffff"))]))]);
      var kw := JObj([("keyword", JObj([("color", JStr("#c678dd"))]))]);
      var doc := JObj([("theme", JObj([("syntax", JArr([foo, kw]))]))]);
      ApplyDocument(Settings(map[], map[], map[]), [], doc)
        == Outcome(Settings(map[Keyword := JStr("#c678dd")], map[], map[]), [InvalidStyleName("foo")], true)
  {
    var foo := JObj([("foo", JObj([("color", JStr("#ffffff"))]))]);
    var kw := JObj([("keyword", JObj([("color", JStr("#c678dd"))]))]);
    var doc := JObj([("theme", JObj([("syntax", JArr([foo, kw]))]))]);
    var empty := Settings(map[], map[], map[]);
    assert SyntaxEntries(doc) == Some([foo, kw]);
    assert StyleOfName("foo").None?;
    var o1 := ApplyEntry(empty, [], foo);
    assert o1 == Outcome(empty, [InvalidStyleName("foo")], true);
    assert StyleOfName("keyword") == Some(Keyword);
    var props := [("color", JStr("#c678dd"))];
    assert ApplyProps(empty, o1.diagnostics, Keyword, props)
      == Outcome(empty.(color := map[Keyword := JStr("#c678dd")]), o1.diagnostics, true) by {
      assert props[1..] == [];
    }
    assert [foo, kw][1..] == [kw] && [kw][1..] == [];
  }

  /** One step of the outer loop, at index `i` of the entries. */
  lemma {:induction false} EntriesAdvance(o: Outcome, es: seq<Json>, i: nat)
    requires o.completed && i < |es|
    ensures ApplyEntries(o, es[i..]) == ApplyEntries(ApplyEntry(o.settings, o.diagnostics, es[i]), es[i + 1..])
  {
    assert es[i..][0] == es[i] && es[i..][1..] == es[i + 1..];
  }

  /** One step of the inner loop, at index `j` of a style's properties. */
  lemma {:induction false} PropsAdvance(st: Settings, d: seq<Diagnostic>, s: Style, props: seq<(string, Json)>, j: nat)
    requires j < |props|
    ensures var o := ApplyProp(st, d, s, props[j].0, props[j].1);
      ApplyProps(st, d, s, props[j..]) == if o.completed then ApplyProps(o.settings, o.diagnostics, s, props[j + 1..]) else o
  {
    assert props[j..][0] == props[j] && props[j..][1..] == props[j + 1..];
  }

  /**
   * The lexer's theme state: the default colour, background and font set
   * before the theme is read, the per-style settings the theme loop makes,
   * and the diagnostics it prints.
   */
  class Lexer {
    const defaultColor: string
    const defaultPaper: string
    const defaultFont: Font
    var color: map<Style, Json>
    var paper: map<Style, Json>
    var font: map<Style, Font>
    var diagnostics: seq<Diagnostic>

    /** The per-style settings as one value. */
    function State(): Settings
      reads this
    {
      Settings(color, paper, font)
    }

    /** The defaults set before the theme: `#abb2bf` on `#282c34`, Consolas at size 14. */
    constructor()
      ensures defaultColor == "#abb2bf" && defaultPaper == "#282c34"
      ensures defaultFont == Font(JStr("Consolas"), JNum(14), None, JBool(false))
      ensures State() == Settings(map[], map[], map[]) && diagnostics == []
    {
      defaultColor := "#abb2bf";
      defaultPaper := "#282c34";
      defaultFont := Font(JStr("Consolas"), JNum(14), None, JBool(false));
      color, paper, font := map[], map[], map[];
      diagnostics := [];
    }

    /**
     * The theme loop over a parsed `theme.json` document: for each entry,
     * report and skip an unknown style name, otherwise act on the style's
     * `color`, `paper` and `font` properties. `completed` is false when an
     * exception escapes, which leaves the settings made up to that point.
     */
    method ApplyTheme(doc: Json) returns (completed: bool)
      modifies this
      ensures Outcome(State(), diagnostics, completed) == ApplyDocument(old(State()), old(diagnostics), doc)
    {
      var entries := SyntaxEntries(doc);
      if entries.None? {
        return false;
      }
      var es := entries.value;
      ghost var goal := ApplyEntries(Outcome(State(), diagnostics, true), es);
      var i := 0;
      while i < |es|
        invariant i <= |es|
        invariant ApplyEntries(Outcome(State(), diagnostics, true), es[i..]) == goal
      {
        var clr := es[i];
        EntriesAdvance(Outcome(State(), diagnostics, true), es, i);
        if !clr.JObj? || clr.members == [] {
          return false;
        }
        var name := clr.members[0].0;
        var style := StyleOfName(name);
        if style.None? {
          diagnostics := diagnostics + [InvalidStyleName(name)];
        } else {
          var s := style.value;
          var body := clr.members[0].1;
          if !body.JObj? {
            return false;
          }
          var ok := ApplyStyle(s, body.members);
          if !ok {
            return false;
          }
        }
        i := i + 1;
      }
      return true;
    }

    /** The inner loop: one style's properties, in order, until an exception escapes. */
    method ApplyStyle(s: Style, props: seq<(string, Json)>) returns (completed: bool)
      modifies this
      ensures Outcome(State(), diagnostics, completed) == ApplyProps(old(State()), old(diagnostics), s, props)
    {
      ghost var goal := ApplyProps(State(), diagnostics, s, props);
      var j := 0;
      while j < |props|
        invariant j <= |props|
        invariant ApplyProps(State(), diagnostics, s, props[j..]) == goal
      {
        PropsAdvance(State(), diagnostics, s, props, j);
        var ok := ApplyProperty(s, props[j].0, props[j].1);
        if !ok {
          return false;
        }
        j := j + 1;
      }
      return true;
    }

    /** One `k, v` pair of a style's object; `completed` is false when `QFont`'s weight lookup raises. */
    method ApplyProperty(s: Style, k: string, v: Json) returns (completed: bool)
      modifies this
      ensures Outcome(State(), diagnostics, completed) == ApplyProp(old(State()), old(diagnostics), s, k, v)
    {
      if k == "color" {
        color := color[s := v];
      } else if k == "paper" {
        paper := paper[s := v];
      } else if k == "font" {
        if !v.JObj? {
          diagnostics := diagnostics + [FontError(s)];
        } else {
          var f := FontOf(v.members);
          if f.None? {
            return false;
          }
          font := font[s := f.value];
        }
      }
      return true;
    }
  }
}
