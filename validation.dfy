/** The colour validators of the utilities module (`isValidHex`,
    `isValidCMYK`, `isValidColor`) and the CMYK to RGB conversion
    (`parseCMYK`). */
module Validation {
  import opened Wrappers
  import opened Text
  import opened JsNumber
  import opened CmykSyntax
  import Chroma

  // Hexadecimal notation

  /** Three hexadecimal digits starting at position i. */
  predicate HexGroupAt(s: string, i: nat) {
    i + 3 <= |s| && IsHexDigit(s[i]) && IsHexDigit(s[i + 1]) && IsHexDigit(s[i + 2])
  }

  /** `isValidHex`: an empty text is refused; otherwise the text must be
      `#`, one group of three hexadecimal digits, and then either its end or
      a second group and its end: `#rgb` or `#rrggbb`. */
  function IsValidHex(s: string): (ok: bool)
    ensures ok <==> (|s| == 4 || |s| == 7) && s[0] == '#' &&
                    forall i :: 1 <= i < |s| ==> IsHexDigit(s[i])
  {
    if s == "" then false
    else s[0] == '#' && HexGroupAt(s, 1) && (|s| == 4 || (HexGroupAt(s, 4) && |s| == 7))
  }

  /** `#` before three or six hexadecimal digits is always accepted. */
  lemma HexNotationValid(d: string)
    requires |d| == 3 || |d| == 6
    requires forall i :: 0 <= i < |d| ==> IsHexDigit(d[i])
    ensures IsValidHex("#" + d)
  {
    var s := "#" + d;
    forall i | 1 <= i < |s|
      ensures IsHexDigit(s[i])
    {
      assert s[i] == d[i - 1];
    }
  }

  /** Hexadecimal digits keep their class under `toLowerCase`, and no other
      character enters it. */
  lemma LowerKeepsHexClass(c: char)
    ensures IsHexDigit(LowerChar(c)) == IsHexDigit(c)
    ensures (LowerChar(c) == '#') == (c == '#')
  {
  }

  /** The test ignores letter case: a text and its lower case are accepted
      together. */
  lemma HexIgnoresCase(s: string)
    ensures IsValidHex(ToLower(s)) == IsValidHex(s)
  {
    var t := ToLower(s);
    forall i | 0 <= i < |s|
      ensures IsHexDigit(t[i]) == IsHexDigit(s[i]) && (t[i] == '#') == (s[i] == '#')
    {
      LowerKeepsHexClass(s[i]);
    }
  }

  // CMYK notation

  /** The four numbers `parseInt` reads from the groups of a CMYK text. */
  datatype Percentages = Percentages(c: nat, m: nat, y: nat, k: nat)

  /** The numbers of a text the CMYK pattern matches; `None` where it does
      not match. Each number has at most three digits. */
  function CmykNumbers(s: string): (r: Option<Percentages>)
    ensures r.Some? <==> Parse(s).Some?
    ensures r.Some? ==> r.value.c < 1000 && r.value.m < 1000 && r.value.y < 1000 && r.value.k < 1000
  {
    match Parse(s)
    case None => None
    case Some(t) =>
      RenderParse(s);
      DecimalValueShort(t.c.field.digits);
      DecimalValueShort(t.m.field.digits);
      DecimalValueShort(t.y.field.digits);
      DecimalValueShort(t.k.field.digits);
      Some(Percentages(Value(t, 0), Value(t, 1), Value(t, 2), Value(t, 3)))
  }

  predicate InPercentRange(p: Percentages) {
    p.c <= 100 && p.m <= 100 && p.y <= 100 && p.k <= 100
  }

  /** `isValidCMYK`: a non-empty text the pattern matches whose four
      numbers all lie in 0..100. */
  predicate IsValidCmyk(s: string) {
    s != "" && CmykNumbers(s).Some? && InPercentRange(CmykNumbers(s).value)
  }

  /** The numbers of a text built from the pieces of the pattern. */
  lemma NumbersOfRender(t: CmykText)
    requires WellFormed(t)
    ensures CmykNumbers(Render(t)) == Some(Percentages(Value(t, 0), Value(t, 1), Value(t, 2), Value(t, 3)))
  {
    ParseRender(t);
  }

  /** A text built from the pieces of the pattern is valid exactly when its
      four numbers are percentages. */
  lemma ValidCmykOfRender(t: CmykText)
    requires WellFormed(t)
    ensures IsValidCmyk(Render(t)) <==>
      Value(t, 0) <= 100 && Value(t, 1) <= 100 && Value(t, 2) <= 100 && Value(t, 3) <= 100
  {
    NumbersOfRender(t);
  }

  /** Every valid text is such a text: its pieces are found, and glued back
      they give the text itself. */
  lemma ValidCmykIsRender(s: string) returns (t: CmykText)
    requires IsValidCmyk(s)
    ensures WellFormed(t) && Render(t) == s
    ensures Value(t, 0) <= 100 && Value(t, 1) <= 100 && Value(t, 2) <= 100 && Value(t, 3) <= 100
  {
    t := Parse(s).value;
    RenderParse(s);
  }

  /** The empty text is refused, as the code's first test does; the pattern
      alone would refuse it too. */
  lemma EmptyNotCmyk()
    ensures !IsValidCmyk("") && Parse("").None?
  {
  }

  /** An RGB triple of integers, as `parseCMYK` returns it. */
  datatype Rgb = Rgb(r: int, g: int, b: int)

  /** One channel of `parseCMYK`, `Math.round(255 * (1 - x/100) * (1 - k/100))`,
      computed on integers. For numbers above 100 it leaves 0..255, as the
      code does. */
  function CmykChannel(x: nat, k: nat): (r: int)
    ensures r == Round(255.0 * (1.0 - x as real / 100.0) * (1.0 - k as real / 100.0))
  {
    var n := 255 * (100 - x) * (100 - k);
    RoundRatioIsRound(n);
    assert n as real / 10000.0 == 255.0 * (1.0 - x as real / 100.0) * (1.0 - k as real / 100.0) by {
      assert (100 - x) as real == 100.0 * (1.0 - x as real / 100.0);
      assert (100 - k) as real == 100.0 * (1.0 - k as real / 100.0);
    }
    RoundRatio(n, 10000)
  }

  /** `parseCMYK`: `None` where the code throws (the pattern does not
      match); otherwise each RGB channel darkens by its own ink and by the
      black ink. The numbers are not range-checked here. */
  function ParseCmyk(s: string): (r: Option<Rgb>)
    ensures r.Some? <==> Parse(s).Some?
  {
    match CmykNumbers(s)
    case None => None
    case Some(p) => Some(ColorOfInks(p))
  }

  /** Percentages give channels within 0..255. */
  lemma ChannelRange(x: nat, k: nat)
    requires x <= 100 && k <= 100
    ensures 0 <= CmykChannel(x, k) <= 255
  {
    var a, b := 100 - x, 100 - k;
    assert 0 <= a * b <= 10000 by {
      assert a * b <= 100 * b;
    }
  }

  /** Full black ink gives a black channel whatever the other ink. */
  lemma ChannelFullBlack(x: nat)
    requires x <= 100
    ensures CmykChannel(x, 100) == 0
  {
  }

  /** No ink at all gives a full channel. */
  lemma ChannelNoInk()
    ensures CmykChannel(0, 0) == 255
  {
  }

  /** More ink never lightens a channel. */
  lemma ChannelAntitone(x1: nat, x2: nat, k: nat)
    requires x1 <= x2 <= 100 && k <= 100
    ensures CmykChannel(x2, k) <= CmykChannel(x1, k)
  {
    var b := 100 - k;
    assert (100 - x2) * b <= (100 - x1) * b;
  }

  /** The colour `parseCMYK` gives for four percentages. */
  function ColorOfInks(p: Percentages): Rgb {
    Rgb(CmykChannel(p.c, p.k), CmykChannel(p.m, p.k), CmykChannel(p.y, p.k))
  }

  /** Percentages give a colour of bytes; full black ink gives black. */
  lemma ColorOfPercentages(p: Percentages)
    requires InPercentRange(p)
    ensures var rgb := ColorOfInks(p);
      0 <= rgb.r <= 255 && 0 <= rgb.g <= 255 && 0 <= rgb.b <= 255
    ensures p.k == 100 ==> ColorOfInks(p) == Rgb(0, 0, 0)
  {
    ChannelRange(p.c, p.k);
    ChannelRange(p.m, p.k);
    ChannelRange(p.y, p.k);
    if p.k == 100 {
      ChannelFullBlack(p.c);
      ChannelFullBlack(p.m);
      ChannelFullBlack(p.y);
    }
  }

  /** A valid CMYK text converts to an RGB colour of bytes; with full black
      ink the colour is black. */
  lemma ParseValidCmyk(s: string)
    requires IsValidCmyk(s)
    ensures ParseCmyk(s).Some?
    ensures var rgb := ParseCmyk(s).value;
      0 <= rgb.r <= 255 && 0 <= rgb.g <= 255 && 0 <= rgb.b <= 255
    ensures CmykNumbers(s).value.k == 100 ==> ParseCmyk(s) == Some(Rgb(0, 0, 0))
  {
    ColorOfPercentages(CmykNumbers(s).value);
  }

  /** Each channel depends on its own ink and the black ink only: two texts
      with the same black ink and the same cyan (magenta, yellow) ink give
      the same red (green, blue) channel. */
  lemma ChannelInputs(s1: string, s2: string)
    requires CmykNumbers(s1).Some? && CmykNumbers(s2).Some?
    ensures var p1, p2 := CmykNumbers(s1).value, CmykNumbers(s2).value;
      var rgb1, rgb2 := ParseCmyk(s1).value, ParseCmyk(s2).value;
      p1.k == p2.k ==>
        (p1.c == p2.c ==> rgb1.r == rgb2.r) &&
        (p1.m == p2.m ==> rgb1.g == rgb2.g) &&
        (p1.y == p2.y ==> rgb1.b == rgb2.b)
  {
  }

  /** A text with no ink at all gives white. */
  lemma NoInkIsWhite(s: string)
    requires CmykNumbers(s) == Some(Percentages(0, 0, 0, 0))
    ensures ParseCmyk(s) == Some(Rgb(255, 255, 255))
  {
    ChannelNoInk();
  }

  // Any colour

  /** A lower-cased text begins with `cmyk` when its first four characters
      spell the keyword in any ASCII case. */
  lemma KeywordLowersToCmyk(s: string)
    requires |s| >= 4 && IsKeyword(s[..4])
    ensures StartsWith(ToLower(s), "cmyk")
  {
    var t := ToLower(s);
    assert t[0] == 'c' && t[1] == 'm' && t[2] == 'y' && t[3] == 'k';
    assert t[..4] == "cmyk";
  }

  /** `isValidColor`: an empty text is refused; a text whose lower case
      begins with `cmyk` must pass `isValidCMYK`; any other text must be
      accepted by the colour library, whose refusal is a thrown error. */
  function IsValidColor(lib: Chroma.Library, s: string): (ok: bool)
    ensures ok && StartsWith(ToLower(s), "cmyk") ==> IsValidCmyk(s)
    ensures ok && !StartsWith(ToLower(s), "cmyk") ==> lib.parse(s).Some?
    ensures s == "" ==> !ok
  {
    if s == "" then false
    else if StartsWith(ToLower(s), "cmyk") then IsValidCmyk(s)
    else lib.parse(s).Some?
  }

  /** A valid CMYK text begins with `cmyk` once lower-cased. */
  lemma ValidCmykHasPrefix(s: string)
    requires IsValidCmyk(s)
    ensures StartsWith(ToLower(s), "cmyk")
  {
    RenderParse(s);
    var t := Parse(s).value;
    assert s[..4] == t.keyword;
    KeywordLowersToCmyk(s);
  }

  /** A valid CMYK text is a valid colour, for every colour library: it is
      always routed to the CMYK test. */
  lemma ValidCmykIsValidColor(lib: Chroma.Library, s: string)
    requires IsValidCmyk(s)
    ensures IsValidColor(lib, s)
  {
    ValidCmykHasPrefix(s);
  }

  /** A text that begins with `cmyk` in any case never reaches the library:
      the library cannot make an invalid CMYK text valid. */
  lemma CmykPrefixIgnoresLibrary(lib1: Chroma.Library, lib2: Chroma.Library, s: string)
    requires StartsWith(ToLower(s), "cmyk")
    ensures IsValidColor(lib1, s) == IsValidColor(lib2, s) == IsValidCmyk(s)
  {
  }
}
