/** The WCAG contrast evaluation (`evaluateAccessibility`,
    `getAccessibilityScore`): thresholds 3, 4.5 and 7 on the contrast
    ratio, as in WCAG 2.1 success criteria 1.4.3, 1.4.6 and 1.4.11. */
module Accessibility {
  import opened Chroma
  import Conversion

  datatype Evaluation = Evaluation(contrast: real, smallText: bool, largeText: bool,
                                   uiComponents: bool, wcagAA: bool, wcagAAA: bool, score: nat)

  /** `getAccessibilityScore`: the first band the contrast reaches, from
      the top. */
  function AccessibilityScore(contrast: real): (score: nat)
    ensures score in {20, 40, 60, 80, 100}
    ensures score == 100 <==> contrast >= 7.0
    ensures score >= 80 <==> contrast >= 4.5
    ensures score >= 60 <==> contrast >= 3.0
    ensures score >= 40 <==> contrast >= 2.0
  {
    if contrast >= 7.0 then 100
    else if contrast >= 4.5 then 80
    else if contrast >= 3.0 then 60
    else if contrast >= 2.0 then 40
    else 20
  }

  /** A higher contrast never scores lower. */
  lemma ScoreMonotone(a: real, b: real)
    requires a <= b
    ensures AccessibilityScore(a) <= AccessibilityScore(b)
  {
  }

  /** `evaluateAccessibility`: the contrast of the two colours (1 when the
      library fails) and the flags and score it earns. */
  function EvaluateAccessibility(lib: Library, text: string, background: string): (e: Evaluation)
    ensures e.contrast == Conversion.CalculateContrast(lib, text, background)
    ensures e.smallText <==> e.contrast >= 4.5
    ensures e.largeText <==> e.contrast >= 3.0
    ensures e.uiComponents == e.largeText && e.wcagAA == e.smallText
    ensures e.wcagAAA <==> e.contrast >= 7.0
    ensures e.score == AccessibilityScore(e.contrast)
  {
    var contrast := Conversion.CalculateContrast(lib, text, background);
    Evaluation(contrast, contrast >= 4.5, contrast >= 3.0, contrast >= 3.0, contrast >= 4.5,
      contrast >= 7.0, AccessibilityScore(contrast))
  }

  /** The levels are nested, and the score tells which of them are met. */
  lemma LevelsNested(lib: Library, text: string, background: string)
    ensures var e := EvaluateAccessibility(lib, text, background);
      (e.wcagAAA ==> e.wcagAA) && (e.wcagAA ==> e.largeText) &&
      (e.wcagAAA <==> e.score == 100) && (e.wcagAA <==> e.score >= 80) &&
      (e.largeText <==> e.score >= 60)
  {
  }

  /** When the library cannot compare the colours, they are rated as having
      no contrast: the lowest score and every level failed. */
  lemma FailedContrastFailsAll(lib: Library, text: string, background: string)
    requires lib.contrast(text, background).None?
    ensures EvaluateAccessibility(lib, text, background) ==
      Evaluation(1.0, false, false, false, false, false, 20)
  {
  }
}
