/** The palette exporters of the utilities module: the padding of the
    colour list to the eleven Tailwind steps, the Tailwind, CSS and SCSS
    generators that append one line per step, and the `exportColors`
    dispatch. A reader for each layout recovers the (step, colour) pairs
    from the text. */
module Exporters {
  import opened Wrappers
  import opened Text
  import Json

  /** The eleven Tailwind shade steps. */
  const Steps: seq<nat> := [50, 100, 200, 300, 400, 500, 600, 700, 800, 900, 950]

  /** The colour used when there is none. */
  const DefaultColor: string := "#0ea5e9"

  // The padded colour list

  /** `x || '#0ea5e9'` for a string entry: only the empty string is falsy. */
  function OrDefault(x: string): (r: string)
    ensures r != ""
    ensures x != "" ==> r == x
    ensures x == "" ==> r == DefaultColor
  {
    if x == "" then DefaultColor else x
  }

  /** The copy the generators start from: the list (`None` when the value
      is not an array, which counts as empty), or the default colour alone
      when that is empty. */
  function Start(colors: Option<seq<string>>): (r: seq<string>)
    ensures |r| >= 1
  {
    var c := if colors.Some? then colors.value else [];
    if c == [] then [DefaultColor] else c
  }

  /** A non-empty list followed by as many copies of its last entry (the
      default colour if that is empty) as it takes to reach `n` entries. */
  function PadList(s: seq<string>, n: nat): (r: seq<string>)
    requires |s| >= 1
    ensures |r| == if |s| < n then n else |s|
  {
    s + seq(if |s| < n then n - |s| else 0, _ => OrDefault(s[|s| - 1]))
  }

  /** The list after the padding loop: the start padded to one entry per
      step. */
  function Padded(colors: Option<seq<string>>): (r: seq<string>)
    ensures |r| >= |Steps|
  {
    PadList(Start(colors), |Steps|)
  }

  /** The padding loop: push the falsy-defaulted last entry until there are
      `n` entries. */
  method PadLoop(s: seq<string>, n: nat) returns (safe: seq<string>)
    requires |s| >= 1
    ensures safe == PadList(s, n)
  {
    safe := s;
    ghost var fill := OrDefault(s[|s| - 1]);
    while |safe| < n
      invariant |safe| >= |s| && safe[..|s|] == s
      invariant forall i :: |s| <= i < |safe| ==> safe[i] == fill
      invariant |s| < n ==> |safe| <= n
      invariant |s| >= n ==> safe == s
      decreases n - |safe|
    {
      safe := safe + [OrDefault(safe[|safe| - 1])];
    }
  }

  /** The copy of the colours (the default colour alone for none), padded
      to one entry per step. */
  method SafeColors(colors: Option<seq<string>>) returns (safe: seq<string>)
    ensures safe == Padded(colors)
  {
    safe := if colors.Some? then colors.value else [];
    if |safe| == 0 {
      safe := safe + [DefaultColor];
    }
    safe := PadLoop(safe, |Steps|);
  }

  /** The padded list keeps the given entries, in order, and pads with one
      entry repeated, never empty; a list of eleven or more is kept whole. */
  lemma PaddedShape(colors: Option<seq<string>>)
    ensures var s, p := Start(colors), Padded(colors);
      |p| == (if |s| < |Steps| then |Steps| else |s|) && p[..|s|] == s &&
      (forall i :: |s| <= i < |p| ==> p[i] == OrDefault(s[|s| - 1]) && p[i] != "")
    ensures colors.Some? && |colors.value| >= |Steps| ==> Padded(colors) == colors.value
  {
    var s := Start(colors);
    assert Padded(colors)[..|s|] == s;
  }

  /** No colours at all give the default colour on every step. */
  lemma PaddedEmpty()
    ensures Padded(None) == Padded(Some([])) == seq(|Steps|, _ => DefaultColor)
  {
  }

  // Line layouts

  datatype Layout = TailwindEntry | CssEntry | ScssVariable | ScssMapEntry

  /** The text before a step's number on its line. */
  function Pre(k: Layout): string {
    match k
    case TailwindEntry => "          "
    case CssEntry => "  --color-primary-"
    case ScssVariable => "$color-primary-"
    case ScssMapEntry => "  "
  }

  /** The text between the step's number and its colour. */
  function Mid(k: Layout): string {
    match k
    case TailwindEntry => ": '"
    case _ => ": "
  }

  /** The text after the colour, ending the line. */
  function Post(k: Layout): string {
    match k
    case TailwindEntry => "',\n"
    case CssEntry => ";\n"
    case ScssVariable => ";\n"
    case ScssMapEntry => ",\n"
  }

  function Line(k: Layout, step: nat, color: string): string {
    Pre(k) + NatToString(step) + Mid(k) + color + Post(k)
  }

  /** The lines of the steps from position i on, first to last. */
  function LinesFrom(k: Layout, steps: seq<nat>, safe: seq<string>, i: nat): string
    requires |safe| >= |steps|
    decreases |steps| - i
  {
    if i >= |steps| then "" else Line(k, steps[i], safe[i]) + LinesFrom(k, steps, safe, i + 1)
  }

  /** Appending the line of step i keeps the text plus the lines still to
      come unchanged. */
  lemma AppendStep(k: Layout, steps: seq<nat>, safe: seq<string>, i: nat, out: string, whole: string)
    requires |safe| >= |steps| && i < |steps|
    requires out + LinesFrom(k, steps, safe, i) == whole
    ensures (out + Line(k, steps[i], safe[i])) + LinesFrom(k, steps, safe, i + 1) == whole
  {
  }

  lemma NoLinesLeft(k: Layout, steps: seq<nat>, safe: seq<string>, out: string, whole: string)
    requires |safe| >= |steps|
    requires out + LinesFrom(k, steps, safe, |steps|) == whole
    ensures out == whole
  {
    assert LinesFrom(k, steps, safe, |steps|) == "";
    assert out + "" == out;
  }

  /** The `forEach` appending one line per step to a text. */
  method AppendLines(k: Layout, steps: seq<nat>, safe: seq<string>, text: string) returns (out: string)
    requires |safe| >= |steps|
    ensures out == text + LinesFrom(k, steps, safe, 0)
  {
    out := text;
    ghost var whole := text + LinesFrom(k, steps, safe, 0);
    for i := 0 to |steps|
      invariant out + LinesFrom(k, steps, safe, i) == whole
    {
      AppendStep(k, steps, safe, i, out, whole);
      out := out + Line(k, steps[i], safe[i]);
    }
    NoLinesLeft(k, steps, safe, out, whole);
  }

  // The three generators

  const TailwindHeader: string :=
    "module.exports = {\n  theme: {\n    extend: {\n      colors: {\n        primary: {\n"
  const TailwindFooter: string := "        },\n      },\n    },\n  },\n}"
  const CssHeader: string := ":root {\n"
  const CssFooter: string := "}"
  const ScssHeader: string := "// Variables de color primario\n"
  const ScssMapComment: string := "\n// Mapa de colores primarios\n"
  const ScssMapOpen: string := "$colors-primary: (\n"
  /** What stands between the variables and the map entries. */
  const ScssMiddle: string := ScssMapComment + ScssMapOpen
  const ScssFooter: string := ");"

  function TailwindText(safe: seq<string>): string
    requires |safe| >= |Steps|
  {
    TailwindHeader + LinesFrom(TailwindEntry, Steps, safe, 0) + TailwindFooter
  }

  function CssText(safe: seq<string>): string
    requires |safe| >= |Steps|
  {
    CssHeader + LinesFrom(CssEntry, Steps, safe, 0) + CssFooter
  }

  function ScssText(safe: seq<string>): string
    requires |safe| >= |Steps|
  {
    ScssHeader + LinesFrom(ScssVariable, Steps, safe, 0) + ScssMiddle + LinesFrom(ScssMapEntry, Steps, safe, 0) +
      ScssFooter
  }

  /** `generateTailwindConfig`. */
  method GenerateTailwindConfig(colors: Option<seq<string>>) returns (config: string)
    ensures config == TailwindText(Padded(colors))
  {
    var safe := SafeColors(colors);
    config := AppendLines(TailwindEntry, Steps, safe, TailwindHeader);
    config := config + TailwindFooter;
  }

  /** `generateCSSVariables`. */
  method GenerateCssVariables(colors: Option<seq<string>>) returns (css: string)
    ensures css == CssText(Padded(colors))
  {
    var safe := SafeColors(colors);
    css := AppendLines(CssEntry, Steps, safe, CssHeader);
    css := css + CssFooter;
  }

  /** The SCSS text from its parts: a header, the variable lines, the
      two texts opening the map, the map lines and a footer. */
  method AppendScss(steps: seq<nat>, safe: seq<string>, header: string, comment: string, open: string,
                    footer: string) returns (scss: string)
    requires |safe| >= |steps|
    ensures scss == header + LinesFrom(ScssVariable, steps, safe, 0) + (comment + open) +
      LinesFrom(ScssMapEntry, steps, safe, 0) + footer
  {
    scss := AppendLines(ScssVariable, steps, safe, header);
    scss := scss + comment;
    scss := scss + open;
    scss := AppendLines(ScssMapEntry, steps, safe, scss);
    scss := scss + footer;
  }

  /** `generateSCSSVariables`: the variables, then the same colours as a
      map. */
  method GenerateScssVariables(colors: Option<seq<string>>) returns (scss: string)
    ensures scss == ScssText(Padded(colors))
  {
    var safe := SafeColors(colors);
    scss := AppendScss(Steps, safe, ScssHeader, ScssMapComment, ScssMapOpen, ScssFooter);
  }

  // exportColors

  datatype ExportFormat = Tailwind | Css | Scss | JsonList

  /** The `switch` on `format.toLowerCase()`; `json` and every other name
      give JSON. */
  function ExportFormatOf(name: string): (f: ExportFormat)
    ensures f == Tailwind <==> ToLower(name) == "tailwind"
    ensures f == Css <==> ToLower(name) == "css"
    ensures f == Scss <==> ToLower(name) == "scss"
  {
    var n := ToLower(name);
    if n == "tailwind" then Tailwind
    else if n == "css" then Css
    else if n == "scss" then Scss
    else JsonList
  }

  /** The exported text for a list of colours. JSON shows the list as
      given, without padding. */
  function ExportText(colors: seq<string>, format: string): string {
    match ExportFormatOf(format)
    case Tailwind => TailwindText(Padded(Some(colors)))
    case Css => CssText(Padded(Some(colors)))
    case Scss => ScssText(Padded(Some(colors)))
    case JsonList => Json.Stringify(colors)
  }

  /** `exportColors` on a list of colours. */
  method ExportColors(colors: seq<string>, format: string) returns (out: string)
    ensures out == ExportText(colors, format)
  {
    var f := ExportFormatOf(format);
    match f {
      case Tailwind => out := GenerateTailwindConfig(Some(colors));
      case Css => out := GenerateCssVariables(Some(colors));
      case Scss => out := GenerateScssVariables(Some(colors));
      case JsonList => out := Json.Stringify(colors);
    }
  }

  /** Format names ignore letter case, and the JSON export reads back as
      the given list for every name that is not one of the three
      stylesheet formats. */
  lemma ExportJsonReadsBack(colors: seq<string>, format: string)
    requires ToLower(format) !in {"tailwind", "css", "scss"}
    ensures Json.ReadList(ExportText(colors, format)) == Some(colors)
  {
    Json.ReadStringify(colors);
  }

  /** The JSON export of no colours is the empty array, not a padded
      list. */
  lemma EmptyJsonExport()
    ensures ExportText([], "json") == "[]"
  {
    assert ExportFormatOf("json") == JsonList by {
      assert ToLower("json") == "json";
    }
  }

  lemma ExportIgnoresCase(colors: seq<string>, format: string)
    ensures ExportText(colors, ToLower(format)) == ExportText(colors, format)
  {
    ToLowerIdempotent(format);
  }

  // Reading the lines back

  /** The leading digits of a text, and the text after them. */
  function ReadDigits(t: string): (r: (string, string))
    ensures |r.1| <= |t|
  {
    if t != [] && IsDigit(t[0]) then
      var (d, rest) := ReadDigits(t[1..]);
      ([t[0]] + d, rest)
    else ([], t)
  }

  /** The text before the first `stop`, and the text from it on. */
  function ReadUntil(t: string, stop: char): (r: Option<(string, string)>)
    ensures r.Some? ==> |r.value.1| <= |t|
  {
    if t == [] then None
    else if t[0] == stop then Some(([], t))
    else
      match ReadUntil(t[1..], stop)
      case None => None
      case Some((v, rest)) => Some(([t[0]] + v, rest))
  }

  /** One line `pre`, digits, `mid`, colour, `post`: its step and colour,
      and the text after it. */
  function ReadLine(pre: string, mid: string, post: string, t: string): (r: Option<((nat, string), string)>)
    requires post != []
    ensures r.Some? ==> |r.value.1| < |t|
  {
    if !StartsWith(t, pre) then None
    else
      var (d, r1) := ReadDigits(t[|pre|..]);
      if d == [] || !StartsWith(r1, mid) then None
      else
        match ReadUntil(r1[|mid|..], post[0])
        case None => None
        case Some((v, r2)) =>
          if StartsWith(r2, post) && AllDigits(d) then Some(((DecimalValue(d), v), r2[|post|..]))
          else None
  }

  function ReadLayoutLine(k: Layout, t: string): (r: Option<((nat, string), string)>)
    ensures r.Some? ==> |r.value.1| < |t|
  {
    ReadLine(Pre(k), Mid(k), Post(k), t)
  }

  /** The lines of a layout, as long as they last, and the text after them. */
  function ReadLines(k: Layout, t: string): (seq<(nat, string)>, string)
    decreases |t|
  {
    match ReadLayoutLine(k, t)
    case None => ([], t)
    case Some((e, rest)) =>
      var (es, after) := ReadLines(k, rest);
      ([e] + es, after)
  }

  /** The (step, colour) pairs from position i on. */
  function EntriesFrom(steps: seq<nat>, safe: seq<string>, i: nat): seq<(nat, string)>
    requires |safe| >= |steps|
    decreases |steps| - i
  {
    if i >= |steps| then [] else [(steps[i], safe[i])] + EntriesFrom(steps, safe, i + 1)
  }

  /** A colour that cannot end its line early. */
  predicate Clean(k: Layout, safe: seq<string>) {
    forall i :: 0 <= i < |safe| ==> Post(k)[0] !in safe[i]
  }

  lemma {:induction false} ReadDigitsOf(d: string, u: string)
    requires AllDigits(d)
    requires u == [] || !IsDigit(u[0])
    ensures ReadDigits(d + u) == (d, u)
  {
    if d != [] {
      assert (d + u)[1..] == d[1..] + u;
      ReadDigitsOf(d[1..], u);
      assert [d[0]] + d[1..] == d;
    } else {
      assert d + u == u;
    }
  }

  lemma {:induction false} ReadUntilOf(v: string, stop: char, u: string)
    requires stop !in v && u != [] && u[0] == stop
    ensures ReadUntil(v + u, stop) == Some((v, u))
  {
    if v != [] {
      assert (v + u)[1..] == v[1..] + u;
      ReadUntilOf(v[1..], stop, u);
      assert [v[0]] + v[1..] == v;
    } else {
      assert v + u == u;
    }
  }


  /** A line reads back as its step and colour. */
  lemma ReadLineOf(pre: string, mid: string, post: string, step: nat, color: string, u: string)
    requires mid != [] && !IsDigit(mid[0]) && post != [] && post[0] !in color
    ensures ReadLine(pre, mid, post, pre + (NatToString(step) + (mid + (color + (post + u))))) ==
      Some(((step, color), u))
  {
    var d := NatToString(step);
    var r1 := mid + (color + (post + u));
    HeadSplit(pre, d + r1);
    ReadDigitsOf(d, r1);
    HeadSplit(mid, color + (post + u));
    ReadUntilOf(color, post[0], post + u);
    HeadSplit(post, u);
    DecimalOfNatToString(step);
  }

  lemma LineShape(k: Layout, step: nat, color: string, u: string)
    ensures Line(k, step, color) + u == Pre(k) + (NatToString(step) + (Mid(k) + (color + (Post(k) + u))))
  {
  }

  lemma ReadLayoutLineOf(k: Layout, step: nat, color: string, u: string)
    requires Post(k)[0] !in color
    ensures ReadLayoutLine(k, Line(k, step, color) + u) == Some(((step, color), u))
  {
    LineShape(k, step, color, u);
    ReadLineOf(Pre(k), Mid(k), Post(k), step, color, u);
  }

  /** The lines from position i on read back as their pairs, and reading
      stops at a text that does not begin like a line. */
  lemma {:induction false} ReadLinesFrom(k: Layout, steps: seq<nat>, safe: seq<string>, i: nat, u: string)
    requires |safe| >= |steps| && Clean(k, safe)
    requires ReadLayoutLine(k, u).None?
    ensures ReadLines(k, LinesFrom(k, steps, safe, i) + u) == (EntriesFrom(steps, safe, i), u)
    decreases |steps| - i
  {
    if i >= |steps| {
      assert LinesFrom(k, steps, safe, i) + u == u;
    } else {
      var line, rest := Line(k, steps[i], safe[i]), LinesFrom(k, steps, safe, i + 1) + u;
      assert LinesFrom(k, steps, safe, i) == line + LinesFrom(k, steps, safe, i + 1);
      Regroup3(line, LinesFrom(k, steps, safe, i + 1), u);
      assert Post(k)[0] !in safe[i];
      ReadLayoutLineOf(k, steps[i], safe[i], rest);
      ReadLinesFrom(k, steps, safe, i + 1, u);
    }
  }

  /** A text that does not begin with a layout's line prefix is no line. */
  lemma NotALine(k: Layout, u: string)
    requires !StartsWith(u, Pre(k))
    ensures ReadLayoutLine(k, u).None?
  {
  }

  /** A header, the lines of a layout, and a footer, read back. */
  function ReadDocument(k: Layout, header: string, footer: string, t: string): Option<seq<(nat, string)>> {
    if !StartsWith(t, header) then None
    else
      var (es, rest) := ReadLines(k, t[|header|..]);
      if rest == footer then Some(es) else None
  }

  function ReadTailwind(t: string): Option<seq<(nat, string)>> {
    ReadDocument(TailwindEntry, TailwindHeader, TailwindFooter, t)
  }

  function ReadCss(t: string): Option<seq<(nat, string)>> {
    ReadDocument(CssEntry, CssHeader, CssFooter, t)
  }

  /** The SCSS text read back: the variables and the map entries. */
  function ReadScss(t: string): Option<(seq<(nat, string)>, seq<(nat, string)>)> {
    if !StartsWith(t, ScssHeader) then None
    else
      var (vars, rest) := ReadLines(ScssVariable, t[|ScssHeader|..]);
      if !StartsWith(rest, ScssMiddle) then None
      else
        match ReadDocument(ScssMapEntry, ScssMiddle, ScssFooter, rest)
        case None => None
        case Some(entries) => Some((vars, entries))
  }

  /** Lines between a header and a footer that is no line read back as
      their pairs. */
  lemma ReadDocumentOf(k: Layout, steps: seq<nat>, safe: seq<string>, header: string, footer: string)
    requires |safe| >= |steps| && Clean(k, safe) && ReadLayoutLine(k, footer).None?
    ensures ReadDocument(k, header, footer, header + (LinesFrom(k, steps, safe, 0) + footer)) ==
      Some(EntriesFrom(steps, safe, 0))
  {
    HeadSplit(header, LinesFrom(k, steps, safe, 0) + footer);
    ReadLinesFrom(k, steps, safe, 0, footer);
  }

  lemma FootersAreNoLines()
    ensures ReadLayoutLine(TailwindEntry, TailwindFooter).None?
    ensures ReadLayoutLine(CssEntry, CssFooter).None?
    ensures ReadLayoutLine(ScssMapEntry, ScssFooter).None?
  {
    assert TailwindFooter[8] != Pre(TailwindEntry)[8];
    NotALine(TailwindEntry, TailwindFooter);
    NotALine(CssEntry, CssFooter);
    assert ScssFooter[0] != Pre(ScssMapEntry)[0];
    NotALine(ScssMapEntry, ScssFooter);
  }


  /** The Tailwind configuration assigns to each step, in order, the padded
      colour of the same position. */
  lemma ReadTailwindText(safe: seq<string>)
    requires |safe| >= |Steps| && Clean(TailwindEntry, safe)
    ensures ReadTailwind(TailwindText(safe)) == Some(EntriesFrom(Steps, safe, 0))
  {
    FootersAreNoLines();
    Regroup3(TailwindHeader, LinesFrom(TailwindEntry, Steps, safe, 0), TailwindFooter);
    ReadDocumentOf(TailwindEntry, Steps, safe, TailwindHeader, TailwindFooter);
  }

  /** The CSS variables are the steps' custom properties, each set to the
      padded colour of the same position. */
  lemma ReadCssText(safe: seq<string>)
    requires |safe| >= |Steps| && Clean(CssEntry, safe)
    ensures ReadCss(CssText(safe)) == Some(EntriesFrom(Steps, safe, 0))
  {
    FootersAreNoLines();
    Regroup3(CssHeader, LinesFrom(CssEntry, Steps, safe, 0), CssFooter);
    ReadDocumentOf(CssEntry, Steps, safe, CssHeader, CssFooter);
  }

  lemma MiddleIsNoLine(u: string)
    ensures ReadLayoutLine(ScssVariable, ScssMiddle + u).None?
  {
    assert ScssMapComment[0] == '\n';
    assert (ScssMiddle + u)[0] == ScssMapComment[0];
    NotALine(ScssVariable, ScssMiddle + u);
  }

  lemma ReadScssParts(vars: string, rest: string, ev: seq<(nat, string)>, em: seq<(nat, string)>)
    requires ReadLines(ScssVariable, vars + rest) == (ev, rest)
    requires StartsWith(rest, ScssMiddle)
    requires ReadDocument(ScssMapEntry, ScssMiddle, ScssFooter, rest) == Some(em)
    ensures ReadScss(ScssHeader + (vars + rest)) == Some((ev, em))
  {
    HeadSplit(ScssHeader, vars + rest);
  }

  lemma ReadScssOf(steps: seq<nat>, safe: seq<string>)
    requires |safe| >= |steps| && Clean(ScssVariable, safe) && Clean(ScssMapEntry, safe)
    ensures var vars, maps := LinesFrom(ScssVariable, steps, safe, 0), LinesFrom(ScssMapEntry, steps, safe, 0);
      ReadScss(ScssHeader + (vars + (ScssMiddle + (maps + ScssFooter)))) ==
        Some((EntriesFrom(steps, safe, 0), EntriesFrom(steps, safe, 0)))
  {
    var vars, maps := LinesFrom(ScssVariable, steps, safe, 0), LinesFrom(ScssMapEntry, steps, safe, 0);
    var rest := ScssMiddle + (maps + ScssFooter);
    MiddleIsNoLine(maps + ScssFooter);
    ReadLinesFrom(ScssVariable, steps, safe, 0, rest);
    HeadSplit(ScssMiddle, maps + ScssFooter);
    FootersAreNoLines();
    ReadDocumentOf(ScssMapEntry, steps, safe, ScssMiddle, ScssFooter);
    ReadScssParts(vars, rest, EntriesFrom(steps, safe, 0), EntriesFrom(steps, safe, 0));
  }

  /** The SCSS variables and the SCSS map give the same colours to the
      same steps. */
  lemma ReadScssText(safe: seq<string>)
    requires |safe| >= |Steps| && Clean(ScssVariable, safe) && Clean(ScssMapEntry, safe)
    ensures ReadScss(ScssText(safe)) == Some((EntriesFrom(Steps, safe, 0), EntriesFrom(Steps, safe, 0)))
  {
    ScssShape(ScssHeader, LinesFrom(ScssVariable, Steps, safe, 0), ScssMiddle, LinesFrom(ScssMapEntry, Steps, safe, 0),
      ScssFooter);
    ReadScssOf(Steps, safe);
  }

  lemma ScssShape(header: string, vars: string, middle: string, maps: string, footer: string)
    ensures header + vars + middle + maps + footer == header + (vars + (middle + (maps + footer)))
  {
  }

  /** Padding adds only copies of given entries and the default colour,
      which has none of the line-ending characters. */
  lemma PaddedClean(k: Layout, colors: seq<string>)
    requires Clean(k, colors)
    ensures Clean(k, Padded(Some(colors)))
  {
    assert Post(k)[0] !in DefaultColor;
    PaddedShape(Some(colors));
  }

  /** Each stylesheet export of colours without quote, semicolon or comma
      declares the eleven steps in order, each with the padded colour at
      its position, and the SCSS map repeats the SCSS variables. */
  lemma ExportStylesheetsReadBack(colors: seq<string>)
    requires forall i :: 0 <= i < |colors| ==> '\'' !in colors[i] && ';' !in colors[i] && ',' !in colors[i]
    ensures var e := EntriesFrom(Steps, Padded(Some(colors)), 0);
      ReadTailwind(ExportText(colors, "tailwind")) == Some(e) &&
      ReadCss(ExportText(colors, "css")) == Some(e) &&
      ReadScss(ExportText(colors, "scss")) == Some((e, e))
  {
    PaddedClean(TailwindEntry, colors);
    PaddedClean(CssEntry, colors);
    PaddedClean(ScssVariable, colors);
    PaddedClean(ScssMapEntry, colors);
    var safe := Padded(Some(colors));
    StylesheetNames();
    ReadTailwindText(safe);
    ReadCssText(safe);
    ReadScssText(safe);
  }

  lemma StylesheetNames()
    ensures ExportFormatOf("tailwind") == Tailwind && ExportFormatOf("css") == Css && ExportFormatOf("scss") == Scss
  {
    assert ToLower("tailwind") == "tailwind" && ToLower("css") == "css" && ToLower("scss") == "scss";
  }

  /** The pairs are the steps in order, each with its colour. */
  lemma {:induction false} EntriesFromAt(steps: seq<nat>, safe: seq<string>, i: nat, j: nat)
    requires |safe| >= |steps| && i <= j < |steps|
    ensures |EntriesFrom(steps, safe, i)| == |steps| - i
    ensures EntriesFrom(steps, safe, i)[j - i] == (steps[j], safe[j])
    decreases j - i
  {
    if i < j {
      EntriesFromAt(steps, safe, i + 1, j);
    } else {
      EntriesLength(steps, safe, i + 1);
    }
  }

  lemma {:induction false} EntriesLength(steps: seq<nat>, safe: seq<string>, i: nat)
    requires |safe| >= |steps|
    ensures |EntriesFrom(steps, safe, i)| == if i >= |steps| then 0 else |steps| - i
    decreases |steps| - i
  {
    if i < |steps| {
      EntriesLength(steps, safe, i + 1);
    }
  }
}
