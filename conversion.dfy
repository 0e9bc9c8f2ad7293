/** Conversion between colour notations (`convertColor`, `getColorValues`)
    and the two library calls whose failure the code catches
    (`generateColorScale`, `calculateContrast`). */
module Conversion {
  import opened Wrappers
  import opened Text
  import opened JsNumber
  import opened CmykSyntax
  import opened Validation
  import opened Chroma

  // The notations the code prints

  function RgbNotation(r: int, g: int, b: int): string {
    "rgb(" + IntToString(r) + ", " + IntToString(g) + ", " + IntToString(b) + ")"
  }

  function HslNotation(h: int, s: int, l: int): string {
    "hsl(" + IntToString(h) + ", " + IntToString(s) + "%, " + IntToString(l) + "%)"
  }

  function CmykNotation(c: int, m: int, y: int, k: int): string {
    "cmyk(" + IntToString(c) + "%, " + IntToString(m) + "%, " + IntToString(y) + "%, " +
      IntToString(k) + "%)"
  }

  /** The pieces of the CMYK pattern that glue into the printed notation:
      no spaces before the first number, one before each other, none after. */
  function NotationPieces(c: nat, m: nat, y: nat, k: nat): CmykText {
    CmykText("cmyk",
      Item(Field("", NatToString(c)), ""), Item(Field(" ", NatToString(m)), ""),
      Item(Field(" ", NatToString(y)), ""), Item(Field(" ", NatToString(k)), ""))
  }

  /** The pieces glue into the notation, for any four digit strings. */
  lemma PiecesGlue(a: string, b: string, c: string, d: string)
    ensures Render(CmykText("cmyk", Item(Field("", a), ""), Item(Field(" ", b), ""),
                            Item(Field(" ", c), ""), Item(Field(" ", d), ""))) ==
      "cmyk(" + a + "%, " + b + "%, " + c + "%, " + d + "%)"
  {
    var ia, ib, ic, id := ItemText(Item(Field("", a), ""), ','), ItemText(Item(Field(" ", b), ""), ','),
      ItemText(Item(Field(" ", c), ""), ','), ItemText(Item(Field(" ", d), ""), ')');
    assert ia == a + "%,";
    assert ib == " " + b + "%,";
    assert ic == " " + c + "%,";
    assert id == " " + d + "%)";
    calc {
      "cmyk" + "(" + (ia + (ib + (ic + id)));
      "cmyk(" + a + "%," + " " + b + "%," + " " + c + "%," + " " + d + "%)";
      "cmyk(" + a + "%, " + b + "%, " + c + "%, " + d + "%)";
    }
  }

  lemma NotationIsRender(c: nat, m: nat, y: nat, k: nat)
    ensures Render(NotationPieces(c, m, y, k)) == CmykNotation(c, m, y, k)
  {
    PiecesGlue(NatToString(c), NatToString(m), NatToString(y), NatToString(k));
  }

  /** The pieces of numbers below 1000 match the pattern, and their
      fields read as the numbers. */
  lemma PiecesValues(c: nat, m: nat, y: nat, k: nat)
    requires c < 1000 && m < 1000 && y < 1000 && k < 1000
    ensures var t := NotationPieces(c, m, y, k);
      WellFormed(t) && Value(t, 0) == c && Value(t, 1) == m && Value(t, 2) == y && Value(t, 3) == k
  {
    NatToStringShort(c);
    NatToStringShort(m);
    NatToStringShort(y);
    NatToStringShort(k);
    assert AllSpace(" ");
    DecimalOfNatToString(c);
    DecimalOfNatToString(m);
    DecimalOfNatToString(y);
    DecimalOfNatToString(k);
  }

  lemma CmykNotationNumbers(c: nat, m: nat, y: nat, k: nat)
    requires c < 1000 && m < 1000 && y < 1000 && k < 1000
    ensures CmykNumbers(CmykNotation(c, m, y, k)) == Some(Percentages(c, m, y, k))
  {
    var t := NotationPieces(c, m, y, k);
    PiecesValues(c, m, y, k);
    NumbersOfRender(t);
    NotationIsRender(c, m, y, k);
  }

  /** Every printed CMYK notation with numbers of at most three digits
      matches the CMYK pattern and reads back as the same four numbers, so
      it is valid exactly when the numbers are percentages. */
  lemma CmykNotationParses(c: nat, m: nat, y: nat, k: nat)
    requires c < 1000 && m < 1000 && y < 1000 && k < 1000
    ensures CmykNumbers(CmykNotation(c, m, y, k)) == Some(Percentages(c, m, y, k))
    ensures IsValidCmyk(CmykNotation(c, m, y, k)) <==> c <= 100 && m <= 100 && y <= 100 && k <= 100
  {
    CmykNotationNumbers(c, m, y, k);
    var s := CmykNotation(c, m, y, k);
    assert s[0] == 'c';
  }

  // convertColor

  datatype Format = HexFormat | RgbFormat | HslFormat | CmykFormat

  /** The `switch` on `format.toLowerCase()`; names other than the four
      fall to the default branch, hexadecimal. */
  function FormatOf(name: string): (f: Format)
    ensures f == RgbFormat <==> ToLower(name) == "rgb"
    ensures f == HslFormat <==> ToLower(name) == "hsl"
    ensures f == CmykFormat <==> ToLower(name) == "cmyk"
  {
    var n := ToLower(name);
    if n == "hex" then HexFormat
    else if n == "rgb" then RgbFormat
    else if n == "hsl" then HslFormat
    else if n == "cmyk" then CmykFormat
    else HexFormat
  }

  /** Format names ignore letter case. */
  lemma FormatIgnoresCase(name: string)
    ensures FormatOf(ToLower(name)) == FormatOf(name)
  {
    ToLowerIdempotent(name);
  }

  /** The colour object `convertColor` builds: a text beginning with `cmyk`
      in any case must be a valid CMYK text and goes through `parseCMYK`
      and `chroma.rgb`; any other text goes to the library's parser. `None`
      stands for the error the code throws or meets. */
  function ToLibColor(lib: Library, s: string): (r: Option<Color>)
    ensures StartsWith(ToLower(s), "cmyk") ==> (r.Some? <==> IsValidCmyk(s))
    ensures !StartsWith(ToLower(s), "cmyk") ==> r == lib.parse(s)
  {
    if StartsWith(ToLower(s), "cmyk") then
      if IsValidCmyk(s) then
        var rgb := ParseCmyk(s).value;
        Some(lib.fromRgb(rgb.r, rgb.g, rgb.b))
      else None
    else lib.parse(s)
  }

  /** `h || 0`: a missing (NaN) hue prints as 0. */
  function HueOrZero(h: Option<real>): real {
    if h.Some? then h.value else 0.0
  }

  /** A fraction as a rounded percentage. */
  function Percent(x: real): int {
    Round(x * 100.0)
  }

  /** A colour object printed in one format. */
  function Notation(c: Color, f: Format): string {
    match f
    case HexFormat => c.hex
    case RgbFormat => RgbNotation(Round(c.rgb.r), Round(c.rgb.g), Round(c.rgb.b))
    case HslFormat =>
      HslNotation(Round(HueOrZero(c.hsl.hue)), Percent(c.hsl.sat), Percent(c.hsl.light))
    case CmykFormat =>
      CmykNotation(Percent(c.cmyk.c), Percent(c.cmyk.m), Percent(c.cmyk.y), Percent(c.cmyk.k))
  }

  /** `convertColor`: the colour printed in the requested format, or the
      input text itself when any step fails. */
  function ConvertColor(lib: Library, s: string, format: string): (r: string)
    ensures ToLibColor(lib, s).None? ==> r == s
    ensures ToLibColor(lib, s).Some? ==> r == Notation(ToLibColor(lib, s).value, FormatOf(format))
  {
    match ToLibColor(lib, s)
    case None => s
    case Some(c) => Notation(c, FormatOf(format))
  }

  /** On non-empty text, conversion succeeds on exactly the colours
      `isValidColor` accepts; elsewhere the text comes back unchanged. */
  lemma ConvertsExactlyValidColors(lib: Library, s: string, format: string)
    requires s != ""
    ensures ToLibColor(lib, s).Some? <==> IsValidColor(lib, s)
    ensures !IsValidColor(lib, s) ==> ConvertColor(lib, s, format) == s
  {
  }

  /** An invalid CMYK text is returned as given, for every library and
      every format. */
  lemma InvalidCmykKept(lib: Library, s: string, format: string)
    requires StartsWith(ToLower(s), "cmyk") && !IsValidCmyk(s)
    ensures ConvertColor(lib, s, format) == s
  {
  }

  /** A valid CMYK text is converted through the RGB colour `parseCMYK`
      computes for it. */
  lemma CmykInputThroughRgb(lib: Library, s: string, format: string)
    requires IsValidCmyk(s)
    ensures var rgb := ParseCmyk(s).value;
      ConvertColor(lib, s, format) == Notation(lib.fromRgb(rgb.r, rgb.g, rgb.b), FormatOf(format))
  {
    ValidCmykHasPrefix(s);
  }

  /** Unknown format names print hexadecimal, like `hex`. */
  lemma UnknownFormatIsHex(lib: Library, s: string, format: string)
    requires ToLower(format) !in {"rgb", "hsl", "cmyk"}
    ensures ConvertColor(lib, s, format) == ConvertColor(lib, s, "hex")
  {
    assert ToLower("hex") == "hex";
  }

  /** A colour without a hue (a grey, whose hue the library leaves
      undefined) prints with hue 0 in the `hsl` format. */
  lemma UndefinedHuePrintsZero(lib: Library, s: string, c: Color)
    requires ToLibColor(lib, s) == Some(c) && c.hsl.hue.None?
    ensures ConvertColor(lib, s, "hsl") == HslNotation(0, Percent(c.hsl.sat), Percent(c.hsl.light))
  {
    FormatNames();
    RoundUnique(0.0, 0);
  }

  /** A hue just below a full turn prints as 360 degrees. */
  lemma HueCanPrintFullTurn(c: Color)
    requires c.hsl.hue == Some(359.5)
    ensures Notation(c, HslFormat) ==
      HslNotation(360, Percent(c.hsl.sat), Percent(c.hsl.light))
  {
    RoundUnique(359.5, 360);
  }

  /** A fraction in [0, 1] rounds to a percentage. */
  lemma PercentOfFraction(x: real)
    requires 0.0 <= x <= 1.0
    ensures 0 <= Percent(x) <= 100
  {
  }

  predicate FractionsInRange(q: CmykReal) {
    0.0 <= q.c <= 1.0 && 0.0 <= q.m <= 1.0 && 0.0 <= q.y <= 1.0 && 0.0 <= q.k <= 1.0
  }

  /** The four rounded percentages of in-range fractions. */
  function RoundedPercentages(q: CmykReal): (p: Percentages)
    requires FractionsInRange(q)
    ensures InPercentRange(p)
  {
    PercentOfFraction(q.c);
    PercentOfFraction(q.m);
    PercentOfFraction(q.y);
    PercentOfFraction(q.k);
    Percentages(Percent(q.c), Percent(q.m), Percent(q.y), Percent(q.k))
  }

  /** What `convertColor` prints in the CMYK format is itself valid CMYK
      when the library's fractions lie in [0, 1], and it reads back as the
      rounded percentages. */
  lemma CmykOutputValid(c: Color)
    requires FractionsInRange(c.cmyk)
    ensures IsValidCmyk(Notation(c, CmykFormat))
    ensures CmykNumbers(Notation(c, CmykFormat)) == Some(RoundedPercentages(c.cmyk))
  {
    var p := RoundedPercentages(c.cmyk);
    CmykNotationOf(c);
    CmykNotationParses(p.c, p.m, p.y, p.k);
  }

  lemma CmykNotationOf(c: Color)
    requires FractionsInRange(c.cmyk)
    ensures var p := RoundedPercentages(c.cmyk);
      Notation(c, CmykFormat) == CmykNotation(p.c, p.m, p.y, p.k)
  {
  }

  // getColorValues

  datatype RgbValues = RgbValues(r: int, g: int, b: int, text: string)
  datatype HslValues = HslValues(h: int, s: int, l: int, text: string)
  datatype CmykValues = CmykValues(c: int, m: int, y: int, k: int, text: string)
  datatype ColorValues = ColorValues(hex: string, rgb: RgbValues, hsl: HslValues, cmyk: CmykValues,
                                     luminance: real)

  /** The record printed when the library refuses the text. */
  function FallbackValues(s: string): ColorValues {
    ColorValues(s, RgbValues(0, 0, 0, "rgb(0, 0, 0)"), HslValues(0, 0, 0, "hsl(0, 0%, 0%)"),
      CmykValues(0, 0, 0, 0, "cmyk(0%, 0%, 0%, 0%)"), 0.0)
  }

  /** `getColorValues`: the library's reading of the text (no CMYK routing
      here), rounded, with each notation printed from the rounded numbers;
      the luminance rounded to hundredths. */
  function GetColorValues(lib: Library, s: string): (v: ColorValues)
    ensures lib.parse(s).None? ==> v == FallbackValues(s)
  {
    match lib.parse(s)
    case None => FallbackValues(s)
    case Some(c) => ValuesOf(c)
  }

  /** The record of a colour object. */
  function ValuesOf(c: Color): ColorValues {
    var r, g, b := Round(c.rgb.r), Round(c.rgb.g), Round(c.rgb.b);
    var h, sat, l := Round(HueOrZero(c.hsl.hue)), Percent(c.hsl.sat), Percent(c.hsl.light);
    var cc, m, y, k := Percent(c.cmyk.c), Percent(c.cmyk.m), Percent(c.cmyk.y), Percent(c.cmyk.k);
    ColorValues(c.hex, RgbValues(r, g, b, RgbNotation(r, g, b)),
      HslValues(h, sat, l, HslNotation(h, sat, l)), CmykValues(cc, m, y, k, CmykNotation(cc, m, y, k)),
      Round(c.luminance * 100.0) as real / 100.0)
  }

  /** Predicates: each printed notation shows the record's own numbers. */
  predicate Consistent(v: ColorValues) {
    v.rgb.text == RgbNotation(v.rgb.r, v.rgb.g, v.rgb.b) &&
    v.hsl.text == HslNotation(v.hsl.h, v.hsl.s, v.hsl.l) &&
    v.cmyk.text == CmykNotation(v.cmyk.c, v.cmyk.m, v.cmyk.y, v.cmyk.k)
  }

  /** The record is consistent on both paths: the literal texts of the
      fallback are the notations of zero. */
  lemma ValuesConsistent(lib: Library, s: string)
    ensures Consistent(GetColorValues(lib, s))
  {
    match lib.parse(s)
    case None => FallbackConsistent(s);
    case Some(c) => ValuesOfConsistent(c);
  }

  lemma FallbackConsistent(s: string)
    ensures Consistent(FallbackValues(s))
  {
    assert IntToString(0) == "0";
  }

  lemma ValuesOfConsistent(c: Color)
    ensures Consistent(ValuesOf(c))
  {
  }

  /** For text the library reads and that does not begin with `cmyk`, the
      record's notations are what `convertColor` prints. */
  lemma ValuesAgreeWithConvert(lib: Library, s: string)
    requires !StartsWith(ToLower(s), "cmyk") && lib.parse(s).Some?
    ensures var v := GetColorValues(lib, s);
      ConvertColor(lib, s, "hex") == v.hex && ConvertColor(lib, s, "rgb") == v.rgb.text &&
      ConvertColor(lib, s, "hsl") == v.hsl.text && ConvertColor(lib, s, "cmyk") == v.cmyk.text
  {
    var c := lib.parse(s).value;
    assert ToLibColor(lib, s) == Some(c);
    FormatNames();
    ValuesAreNotations(c);
  }

  lemma FormatNames()
    ensures FormatOf("hex") == HexFormat && FormatOf("rgb") == RgbFormat
    ensures FormatOf("hsl") == HslFormat && FormatOf("cmyk") == CmykFormat
  {
    assert ToLower("hex") == "hex" && ToLower("rgb") == "rgb";
    assert ToLower("hsl") == "hsl" && ToLower("cmyk") == "cmyk";
  }

  lemma ValuesAreNotations(c: Color)
    ensures var v := ValuesOf(c);
      v.hex == Notation(c, HexFormat) && v.rgb.text == Notation(c, RgbFormat) &&
      v.hsl.text == Notation(c, HslFormat) && v.cmyk.text == Notation(c, CmykFormat)
  {
  }

  /** The luminance is a whole number of hundredths within half a
      hundredth of the library's. */
  lemma LuminanceRounded(lib: Library, s: string)
    requires lib.parse(s).Some?
    ensures var d := lib.parse(s).value.luminance - GetColorValues(lib, s).luminance;
      -0.005 <= d < 0.005
  {
  }

  // The caught library calls

  /** `generateColorScale`: the library's scale of `steps` colours, or the
      base colour alone when the library throws. */
  function GenerateColorScale(lib: Library, base: string, steps: nat): (r: seq<string>)
    ensures lib.scale(base, steps).None? ==> r == [base]
    ensures lib.scale(base, steps).Some? ==> r == lib.scale(base, steps).value
  {
    match lib.scale(base, steps)
    case None => [base]
    case Some(sc) => sc
  }

  /** `calculateContrast`: the library's ratio, or 1 (no contrast) when
      it throws. */
  function CalculateContrast(lib: Library, a: string, b: string): (r: real)
    ensures lib.contrast(a, b).None? ==> r == 1.0
    ensures lib.contrast(a, b).Some? ==> r == lib.contrast(a, b).value
  {
    match lib.contrast(a, b)
    case None => 1.0
    case Some(x) => x
  }
}
