/** The "SEO" rating of a colour (`evaluateSEO`,
    `getSEORecommendations`): a score for saturation and one for lightness,
    whether the colour is web-safe, and advice texts. */
module Seo {
  import opened JsNumber
  import opened Chroma

  const SaturationUp: string := "Aumentar la saturación para mejorar la visibilidad"
  const SaturationDown: string := "Reducir la saturación para mejorar la legibilidad"
  const LightnessUp: string := "Aumentar la luminosidad para mejorar la visibilidad"
  const LightnessDown: string := "Reducir la luminosidad para mejorar el contraste"
  const WebSafeAdvice: string := "Considerar usar un color web seguro para mayor compatibilidad"

  /** The score of a saturation or a lightness: 100 strictly between 0.2
      and 0.8, 500 per unit up to 0.2, and 250 per unit left above it from
      0.8 on. */
  function BandScore(x: real): (r: real)
    ensures 0.2 < x < 0.8 ==> r == 100.0
    ensures 0.0 <= x <= 1.0 ==> 0.0 <= r <= 100.0
    ensures x <= 0.2 ==> r == 500.0 * x
    ensures x >= 0.8 ==> r == 250.0 * (1.0 - x)
  {
    if 0.2 < x && x < 0.8 then 100.0 else if x <= 0.2 then x * 500.0 else (1.0 - x) * 250.0
  }

  /** The score never falls as the value rises to 0.2 and never rises as it
      grows from 0.8. */
  lemma BandScoreMonotone(a: real, b: real)
    requires a <= b
    ensures b <= 0.2 ==> BandScore(a) <= BandScore(b)
    ensures 0.8 <= a ==> BandScore(b) <= BandScore(a)
  {
  }

  /** The two sides do not meet: the score is continuous at 0.2 and jumps
      from 100 to 50 at 0.8. */
  lemma BandScoreAtEdges()
    ensures BandScore(0.2) == 100.0
    ensures BandScore(0.8) == 50.0
    ensures forall x :: 0.2 < x < 0.8 ==> BandScore(x) == 100.0
  {
  }

  /** `x % 51 === 0` on a rounded channel. A truncated remainder and a
      Euclidean one are zero together, so Dafny's `%` serves here. */
  predicate IsWebSafe(r: int, g: int, b: int) {
    r % 51 == 0 && g % 51 == 0 && b % 51 == 0
  }

  /** On bytes, web-safe channels are the six levels 0, 51, ..., 255. */
  lemma WebSafeLevels(x: int)
    requires 0 <= x <= 255
    ensures x % 51 == 0 <==> x in {0, 51, 102, 153, 204, 255}
  {
  }

  /** The advice `getSEORecommendations` collects, as a value: at most one
      text about saturation, at most one about lightness, then the web-safe
      advice. */
  function SaturationAdvice(s: real): seq<string> {
    if s < 0.2 then [SaturationUp] else if s > 0.8 then [SaturationDown] else []
  }

  function LightnessAdvice(l: real): seq<string> {
    if l < 0.2 then [LightnessUp] else if l > 0.8 then [LightnessDown] else []
  }

  function Advice(s: real, l: real, webSafe: bool): seq<string> {
    SaturationAdvice(s) + LightnessAdvice(l) + (if webSafe then [] else [WebSafeAdvice])
  }

  /** `getSEORecommendations`: the texts pushed one by one. */
  method GetSeoRecommendations(s: real, l: real, webSafe: bool) returns (recs: seq<string>)
    ensures recs == Advice(s, l, webSafe)
  {
    recs := [];
    if s < 0.2 {
      recs := recs + [SaturationUp];
    } else if s > 0.8 {
      recs := recs + [SaturationDown];
    }
    if l < 0.2 {
      recs := recs + [LightnessUp];
    } else if l > 0.8 {
      recs := recs + [LightnessDown];
    }
    if !webSafe {
      recs := recs + [WebSafeAdvice];
    }
  }

  /** At most three texts; the web-safe advice is given exactly when the
      colour is not web-safe, and no advice at all exactly when both values
      lie in [0.2, 0.8] and the colour is web-safe. */
  lemma AdviceShape(s: real, l: real, webSafe: bool)
    ensures |Advice(s, l, webSafe)| <= 3
    ensures WebSafeAdvice in Advice(s, l, webSafe) <==> !webSafe
    ensures Advice(s, l, webSafe) == [] <==> 0.2 <= s <= 0.8 && 0.2 <= l <= 0.8 && webSafe
  {
    assert WebSafeAdvice != SaturationUp && WebSafeAdvice != SaturationDown;
    assert WebSafeAdvice != LightnessUp && WebSafeAdvice != LightnessDown;
  }

  /** Saturation advice follows the score: for a saturation in [0, 1]
      other than 0.8, advice is given exactly when the score is below 100. */
  lemma SaturationAdviceFollowsScore(s: real)
    requires 0.0 <= s <= 1.0 && s != 0.8
    ensures SaturationAdvice(s) != [] <==> BandScore(s) < 100.0
  {
  }

  /** At 0.8 the score is halved but no advice is given. */
  lemma SilentAtUpperEdge()
    ensures SaturationAdvice(0.8) == [] && BandScore(0.8) == 50.0
    ensures LightnessAdvice(0.8) == []
  {
  }

  datatype SeoReport = SeoReport(score: int, saturationScore: int, luminanceScore: int,
                                 isWebSafe: bool, recommendations: seq<string>)

  /** The report of a refused colour. */
  const ZeroReport: SeoReport := SeoReport(0, 0, 0, false, [])

  /** `x % 51 === 0` on each rounded channel of a colour. */
  predicate WebSafeColor(c: Color) {
    IsWebSafe(Round(c.rgb.r), Round(c.rgb.g), Round(c.rgb.b))
  }

  /** The report of a parsed colour, around the given recommendations: the
      mean of the two rounded scores, each score, and web-safety. */
  function Scored(c: Color, recs: seq<string>): SeoReport {
    var sat, lum := BandScore(c.hsl.sat), BandScore(c.hsl.light);
    SeoReport(Round((sat + lum) / 2.0), Round(sat), Round(lum), WebSafeColor(c), recs)
  }

  /** The report `evaluateSEO` returns, as a value; the zero report when the
      library refuses the colour. */
  function SeoReportOf(lib: Library, color: string): SeoReport {
    match lib.parse(color)
    case None => ZeroReport
    case Some(c) => Scored(c, Advice(c.hsl.sat, c.hsl.light, WebSafeColor(c)))
  }

  /** `evaluateSEO`: the advice comes from `getSEORecommendations`. */
  method EvaluateSeo(lib: Library, color: string) returns (report: SeoReport)
    ensures report == SeoReportOf(lib, color)
  {
    match lib.parse(color) {
      case None =>
        report := ZeroReport;
      case Some(c) =>
        var recs := GetSeoRecommendations(c.hsl.sat, c.hsl.light, WebSafeColor(c));
        report := Scored(c, recs);
    }
  }

  /** For saturation and lightness in [0, 1] every score lies in 0..100,
      and the total is 100 when both lie strictly inside the band. */
  lemma ReportScores(lib: Library, color: string)
    requires lib.parse(color).Some?
    requires var h := lib.parse(color).value.hsl; 0.0 <= h.sat <= 1.0 && 0.0 <= h.light <= 1.0
    ensures var r := SeoReportOf(lib, color);
      0 <= r.score <= 100 && 0 <= r.saturationScore <= 100 && 0 <= r.luminanceScore <= 100
    ensures var h := lib.parse(color).value.hsl;
      0.2 < h.sat < 0.8 && 0.2 < h.light < 0.8 ==> SeoReportOf(lib, color).score == 100
  {
    var h := lib.parse(color).value.hsl;
    var sat, lum := BandScore(h.sat), BandScore(h.light);
    assert 0.0 <= (sat + lum) / 2.0 <= 100.0;
  }

  /** In the report of a parsed colour the web-safe advice is given exactly
      when the report says the colour is not web-safe. */
  lemma ReportAdviceMatchesWebSafe(lib: Library, color: string)
    requires lib.parse(color).Some?
    ensures var r := SeoReportOf(lib, color);
      WebSafeAdvice in r.recommendations <==> !r.isWebSafe
  {
    var c := lib.parse(color).value;
    AdviceShape(c.hsl.sat, c.hsl.light, WebSafeColor(c));
  }

  /** A colour the library refuses gets the zero report, with no advice. */
  lemma RefusedColorReport(lib: Library, color: string)
    requires lib.parse(color).None?
    ensures SeoReportOf(lib, color) == SeoReport(0, 0, 0, false, [])
  {
  }
}
