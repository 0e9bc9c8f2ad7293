# Color generator core, modelled in Dafny

This project models the logic of the color-generator web application. The
user picks a primary colour. The application then validates and converts
colour notations: hexadecimal, `rgb(...)`, `hsl(...)` and a `cmyk(...)`
notation it parses itself. It derives a tonal scale of eleven steps and the
harmonic relatives of the colour (complementary, analogous and triadic). It
rates the contrast of two colours against the WCAG levels and rates a
colour for "SEO": saturation, lightness and web-safety, with advice texts.
It exports a scale as a Tailwind configuration, CSS custom properties,
SCSS variables or a JSON list. All of this is in
`src/utils/colorUtils.js`.

The application state lives in `src/context/ColorContext.jsx`: the primary
colour, the derived scale and relatives, favourites, dark mode and a
ten-entry history. An effect on the primary colour writes one CSS variable
per scale step on the document root. The export panel in
`src/components/ui/ExportColors.jsx` pads the scale to eleven colours before
exporting it, and picks the extension of the downloaded file.

The colour library (`chroma-js`) is not part of this model. It appears as a
value of type `Chroma.Library`: uninterpreted functions that parse a colour
(or refuse it), build one from RGB channels, give its rgb/hsl/cmyk
components, hex notation and luminance, build a scale, and compute a
contrast ratio. Every function that throws inside the library is modelled by
a `None` result, so the `catch` branches of the source become explicit
fallback cases.

Modules, one per concern:

| file | module | models |
|---|---|---|
| wrappers.dfy | Wrappers | `Option` |
| text.dfy | Text | characters, `toLowerCase` on ASCII (plus the Kelvin sign), decimal digits, `String(n)` |
| jsnumber.dfy | JsNumber | `Math.round` and the `%` of JavaScript on reals |
| chroma.dfy | Chroma | the colour library's interface |
| cmyk.dfy | CmykSyntax | the CMYK regular expression, as a scanner that is proved to be the inverse of gluing the pieces back |
| validation.dfy | Validation | `isValidHex`, `isValidCMYK`, `parseCMYK`, `isValidColor` |
| conversion.dfy | Conversion | `convertColor`, `getColorValues` and the fallbacks of `generateColorScale` and `calculateContrast` |
| harmony.dfy | Harmony | `generateRelatedColors` |
| accessibility.dfy | Accessibility | `evaluateAccessibility`, `getAccessibilityScore` |
| json.dfy | Json | `JSON.stringify(list, null, 2)` on a list of strings, and a reader for it |
| exporters.dfy | Exporters | `exportColors` and its three stylesheet generators, and readers for their output |
| seo.dfy | Seo | `evaluateSEO`, `getSEORecommendations` |
| colorcontext.dfy | ColorContext | the `ColorProvider` state and its operations, and the document root |
| exportpanel.dfy | ExportPanel | `mapColorsToTailwindScale`, the export effect, `getFileExtension` |

Behaviours of the code a reader may not expect:

- `exportColors([], 'json')` gives `[]`; only the stylesheet exports pad the
  list to eleven default colours (`Exporters.EmptyJsonExport`).
- The hue of an `hsl(...)` output is rounded after the library's hue, so a
  hue of 359.5 or more prints as 360 and not in 0..359
  (`Conversion.HueCanPrintFullTurn`).
- The SEO score of a saturation or lightness of exactly 0.8 is 50, but no
  advice is given for it, because advice starts only above 0.8
  (`Seo.SilentAtUpperEdge`).
- When the scale has fewer than eleven colours, the CSS variables of its
  missing steps keep their previous values (`ColorContext.EffectStyleValues`).
- `getFileExtension` compares the format name exactly, while `exportColors`
  lower-cases it first. So `CSS` exports a stylesheet that is saved as
  `.txt` (`ExportPanel.ExtensionMatchesExport`).

## Model

| member | source | states |
|---|---|---|
| JsNumber.Round | src/utils/colorUtils.js:58-60 | `Math.round`: the result is the integer within half a unit, rounding halves up |
| JsNumber.RoundUnique | src/utils/colorUtils.js:58-60 | the integer with `q - 0.5 <= x < q + 0.5` is the only possible rounding |
| JsNumber.RoundRatio | src/utils/colorUtils.js:58-60 | the rounding of `n/d` satisfies `2dr <= 2n + d < 2dr + 2d` |
| JsNumber.RemainderBelowTwice | src/utils/colorUtils.js:216-224 | for a hue in `[0, 720)`, `% 360` subtracts 360 exactly when the hue reaches 360 |
| Text.ToLower | src/utils/colorUtils.js:76 | `toLowerCase` keeps the length and lowers each character |
| Text.ToLowerIdempotent | src/utils/colorUtils.js:87 | lowering twice equals lowering once |
| Text.DecimalOfNatToString | src/utils/colorUtils.js:98 | reading back the decimal digits of a number gives the number |
| Text.NatToStringInjective | src/utils/colorUtils.js:98 | different numbers print differently |
| Validation.IsValidHex | src/utils/colorUtils.js:8-13 | accepted exactly when the text is `#` followed by 3 or 6 hexadecimal digits |
| Validation.HexNotationValid | src/utils/colorUtils.js:8-13 | `#` before any 3 or 6 hexadecimal digits is accepted |
| Validation.HexIgnoresCase | src/utils/colorUtils.js:11 | the pattern is case-insensitive: a text and its lower case are both accepted or both refused |
| CmykSyntax.ParseRender | src/utils/colorUtils.js:24 | every text that fits the pattern is matched, with its own keyword, spaces and digit groups |
| CmykSyntax.RenderParse | src/utils/colorUtils.js:24 | every match is such a text, and its pieces glue back to the input |
| Validation.CmykNumbers | src/utils/colorUtils.js:24-33 | the four captured numbers exist exactly when the pattern matches, and each is below 1000 |
| Validation.NumbersOfRender | src/utils/colorUtils.js:28-33 | a text built from pattern pieces yields exactly the values of its digit groups |
| Validation.ValidCmykOfRender | src/utils/colorUtils.js:20-36 | such a text is valid exactly when all four numbers lie in 0..100 |
| Validation.ValidCmykIsRender | src/utils/colorUtils.js:20-36 | every valid text is such a text, with numbers in 0..100 |
| Validation.EmptyNotCmyk | src/utils/colorUtils.js:21 | the empty text is refused |
| Validation.CmykChannel | src/utils/colorUtils.js:58-60 | one RGB channel is `round(255 (1 - x/100)(1 - k/100))` |
| Validation.ChannelRange | src/utils/colorUtils.js:58-60 | for inks in 0..100 the channel lies in 0..255 |
| Validation.ChannelFullBlack | src/utils/colorUtils.js:58-60 | full black ink gives channel 0 whatever the other ink |
| Validation.ChannelNoInk | src/utils/colorUtils.js:58-60 | no ink gives channel 255 |
| Validation.ChannelAntitone | src/utils/colorUtils.js:58-60 | more ink never gives a brighter channel |
| Validation.ParseCmyk | src/utils/colorUtils.js:43-63 | a result exists exactly when the pattern matches; otherwise this is the thrown error |
| Validation.ColorOfPercentages | src/utils/colorUtils.js:58-62 | percentages give channels in 0..255, and `k = 100` gives black |
| Validation.ParseValidCmyk | src/utils/colorUtils.js:43-63 | every valid CMYK text parses to channels in 0..255, and to black when `k` is 100 |
| Validation.ChannelInputs | src/utils/colorUtils.js:58-60 | with equal black ink, red depends only on cyan, green only on magenta and blue only on yellow |
| Validation.NoInkIsWhite | src/utils/colorUtils.js:43-63 | a text with all four numbers 0 parses to white, (255, 255, 255) |
| Validation.KeywordLowersToCmyk | src/utils/colorUtils.js:117 | any case-mix of the keyword starts with `cmyk` after lower-casing |
| Validation.IsValidColor | src/utils/colorUtils.js:113-128 | empty is refused; a `cmyk` text is valid only if the CMYK test accepts it; any other text only if the library parses it |
| Validation.ValidCmykHasPrefix | src/utils/colorUtils.js:117-119 | every valid CMYK text takes the CMYK branch of `isValidColor` |
| Validation.ValidCmykIsValidColor | src/utils/colorUtils.js:113-128 | every valid CMYK text is a valid colour |
| Validation.CmykPrefixIgnoresLibrary | src/utils/colorUtils.js:117-119 | on the CMYK branch the library's opinion does not matter |
| Conversion.PiecesGlue | src/utils/colorUtils.js:98 | the `cmyk(c%, m%, y%, k%)` output is a text of the CMYK pattern |
| Conversion.NotationIsRender | src/utils/colorUtils.js:98 | the output notation is the rendering of its pieces |
| Conversion.PiecesValues | src/utils/colorUtils.js:98 | those pieces are well formed and carry the four numbers |
| Conversion.CmykNotationNumbers | src/utils/colorUtils.js:98 | reading the output notation gives back the four numbers |
| Conversion.CmykNotationParses | src/utils/colorUtils.js:98 | the output notation is accepted by `isValidCMYK` exactly when its numbers lie in 0..100 |
| Conversion.FormatOf | src/utils/colorUtils.js:87-101 | the format name is compared after lower-casing: `rgb`, `hsl` and `cmyk`, anything else is hex |
| Conversion.FormatIgnoresCase | src/utils/colorUtils.js:87 | the chosen format does not depend on letter case |
| Conversion.FormatNames | src/utils/colorUtils.js:87-101 | the four names select the four formats |
| Conversion.ToLibColor | src/utils/colorUtils.js:76-85 | a `cmyk` text gives a colour exactly when it is valid CMYK; any other text is what the library parses |
| Conversion.ConvertColor | src/utils/colorUtils.js:71-106 | an unparsable input is returned unchanged; otherwise the result is the notation of the parsed colour in the chosen format |
| Conversion.ConvertsExactlyValidColors | src/utils/colorUtils.js:71-128 | a non-empty input converts exactly when `isValidColor` accepts it, and is returned as is otherwise |
| Conversion.InvalidCmykKept | src/utils/colorUtils.js:76-85 | an invalid CMYK text is returned unchanged |
| Conversion.CmykInputThroughRgb | src/utils/colorUtils.js:76-85 | a valid CMYK input is converted through its RGB channels |
| Conversion.UnknownFormatIsHex | src/utils/colorUtils.js:99-100 | an unknown format name gives the hex output |
| Conversion.HueCanPrintFullTurn | src/utils/colorUtils.js:95 | a hue of 359.5 prints as 360 |
| Conversion.UndefinedHuePrintsZero | src/utils/colorUtils.js:95 | a converted colour without a hue prints in `hsl` with hue 0, the fallback of the hue expression |
| Conversion.PercentOfFraction | src/utils/colorUtils.js:98 | a fraction in [0, 1] prints as a percentage in 0..100 |
| Conversion.RoundedPercentages | src/utils/colorUtils.js:98 | fractions in [0, 1] round to percentages in 0..100 |
| Conversion.CmykNotationOf | src/utils/colorUtils.js:98 | the cmyk output is the notation of the rounded percentages |
| Conversion.CmykOutputValid | src/utils/colorUtils.js:98 | every cmyk output of a colour with fractions in [0, 1] is valid CMYK and reads back as its rounded percentages |
| Conversion.GetColorValues | src/utils/colorUtils.js:470-479 | a colour the library refuses gives the fallback values |
| Conversion.ValuesConsistent | src/utils/colorUtils.js:442-480 | in every result, the text of each notation agrees with its numbers |
| Conversion.FallbackConsistent | src/utils/colorUtils.js:472-478 | the fallback values are consistent: zero channels and their texts |
| Conversion.ValuesOfConsistent | src/utils/colorUtils.js:443-469 | the values of a parsed colour are consistent |
| Conversion.ValuesAreNotations | src/utils/colorUtils.js:443-469 | each text of the values is the notation `convertColor` would print for that format |
| Conversion.ValuesAgreeWithConvert | src/utils/colorUtils.js:443-469 | for a non-CMYK colour the library parses, the values agree with `convertColor` in each of the four formats |
| Conversion.LuminanceRounded | src/utils/colorUtils.js:468 | the reported luminance is within 0.005 of the library's |
| Conversion.GenerateColorScale | src/utils/colorUtils.js:136-155 | the library's scale, or the one-colour list `[base]` when it fails |
| Conversion.CalculateContrast | src/utils/colorUtils.js:163-170 | the library's ratio, or 1 when it fails |
| Harmony.Wheel | src/utils/colorUtils.js:216-224 | five relatives, each with the base's saturation and lightness |
| Harmony.GenerateRelatedColors | src/utils/colorUtils.js:210-239 | two analogous and two triadic colours; a refused colour is its own relative everywhere |
| Harmony.TurnOnWheel | src/utils/colorUtils.js:216-224 | a rotation keeps a hue in [0, 360) and adds the angle modulo 360 |
| Harmony.WheelOnWheel | src/utils/colorUtils.js:216-224 | every relative's hue lies in [0, 360) |
| Harmony.ComplementInvolutive | src/utils/colorUtils.js:216 | the complement of the complement is the original hue |
| Harmony.AnalogousInverse | src/utils/colorUtils.js:219-220 | the two analogous rotations undo each other |
| Harmony.TriadicThirds | src/utils/colorUtils.js:223-224 | the triadic rotations are thirds of a turn: three of them return to the start |
| Harmony.AchromaticRelatives | src/utils/colorUtils.js:216-230 | a grey (no hue) keeps its hue undefined, so all of its relatives are the same colour |
| Accessibility.AccessibilityScore | src/utils/colorUtils.js:197-203 | the score is 20, 40, 60, 80 or 100, with each threshold an exact equivalence on the ratio |
| Accessibility.ScoreMonotone | src/utils/colorUtils.js:197-203 | a higher ratio never scores lower |
| Accessibility.EvaluateAccessibility | src/utils/colorUtils.js:178-190 | the flags are the AA (4.5), large-text (3) and AAA (7) thresholds on the ratio, and the score is the ratio's score |
| Accessibility.LevelsNested | src/utils/colorUtils.js:178-203 | AAA implies AA implies large text, and each level matches a score band |
| Accessibility.FailedContrastFailsAll | src/utils/colorUtils.js:168 | when the ratio cannot be computed, every level fails and the score is 20 |
| Json.HexDigitValue | src/utils/colorUtils.js:257-260 | the hexadecimal digit of a `\u` escape reads back as its value |
| Json.UnescapeEscape | src/utils/colorUtils.js:257-260 | every escape sequence reads back as its character |
| Json.ReadEscapedChar | src/utils/colorUtils.js:257-260 | reading an escaped character then the rest equals the character followed by reading the rest |
| Json.ReadEscaped | src/utils/colorUtils.js:257-260 | an escaped string up to its closing quote reads back as the string |
| Json.EscapePlain | src/utils/colorUtils.js:257-260 | a string without quotes, backslashes or control characters is written as it is |
| Json.ReadElementsOf | src/utils/colorUtils.js:257-260 | the indented elements of a non-empty list read back as the list |
| Json.ReadStringify | src/utils/colorUtils.js:257-260 | the JSON list of strings reads back as the list |
| Json.StringifyInjective | src/utils/colorUtils.js:257-260 | two lists with the same JSON are equal |
| Exporters.OrDefault | src/utils/colorUtils.js:286 | an empty colour becomes the default `#0ea5e9`; any other colour is kept |
| Exporters.PadList | src/utils/colorUtils.js:285-287 | the list is padded to the wanted length |
| Exporters.PadLoop | src/utils/colorUtils.js:285-287 | the padding loop builds exactly the padded list |
| Exporters.SafeColors | src/utils/colorUtils.js:277-287 | the copied and padded colours are the padded list of the input |
| Exporters.PaddedShape | src/utils/colorUtils.js:277-287 | the input's colours come first, every added entry repeats the last of them (its default if empty), and eleven or more colours are kept whole |
| Exporters.PaddedEmpty | src/utils/colorUtils.js:277-282 | no list and the empty list both give eleven default colours |
| Exporters.AppendLines | src/utils/colorUtils.js:290-292 | the loop appends one line per step, in step order |
| Exporters.GenerateTailwindConfig | src/utils/colorUtils.js:272-296 | the Tailwind configuration is header, one line per step and footer |
| Exporters.GenerateCssVariables | src/utils/colorUtils.js:303-327 | the CSS output is `:root {`, one custom property per step, and `}` |
| Exporters.AppendScss | src/utils/colorUtils.js:334-364 | the SCSS output is variables, then the map header, then one map entry per step, then the footer |
| Exporters.GenerateScssVariables | src/utils/colorUtils.js:334-366 | the SCSS output over the padded colours |
| Exporters.ExportFormatOf | src/utils/colorUtils.js:249 | the format name is compared after lower-casing |
| Exporters.StylesheetNames | src/utils/colorUtils.js:249-255 | the three stylesheet names select their generators |
| Exporters.ExportColors | src/utils/colorUtils.js:247-265 | the export is the text of the selected format |
| Exporters.ExportJsonReadsBack | src/utils/colorUtils.js:257-261 | the JSON export, and that of any unknown name, reads back as the input list, unpadded |
| Exporters.EmptyJsonExport | src/utils/colorUtils.js:257-258 | the JSON export of no colours is `[]` |
| Exporters.ExportIgnoresCase | src/utils/colorUtils.js:249 | the export does not depend on the format name's letter case |
| Exporters.ReadTailwindText | src/utils/colorUtils.js:272-296 | reading the Tailwind output gives each step with its colour |
| Exporters.ReadCssText | src/utils/colorUtils.js:303-327 | reading the CSS output gives each step with its colour |
| Exporters.ReadScssText | src/utils/colorUtils.js:334-366 | reading the SCSS output gives each step with its colour, both in the variables and in the map |
| Exporters.ExportStylesheetsReadBack | src/utils/colorUtils.js:247-366 | for colours free of quotes, semicolons and commas, all three stylesheets declare the eleven steps with the padded colours |
| Exporters.EntriesFromAt | src/utils/colorUtils.js:273 | the j-th declared entry is step j with colour j |
| Seo.BandScore | src/utils/colorUtils.js:379-380 | 100 strictly between 0.2 and 0.8, `500x` up to 0.2, `250(1 - x)` from 0.8 on, and within 0..100 on [0, 1] |
| Seo.BandScoreMonotone | src/utils/colorUtils.js:379-380 | the score rises up to 0.2 and falls from 0.8 on |
| Seo.BandScoreAtEdges | src/utils/colorUtils.js:379-380 | the score is 100 at 0.2 but jumps to 50 at 0.8 |
| Seo.WebSafeLevels | src/utils/colorUtils.js:383-384 | a channel is web-safe exactly when it is one of the six levels 0, 51, ..., 255 |
| Seo.GetSeoRecommendations | src/utils/colorUtils.js:415-435 | the advice is at most one saturation text, at most one lightness text, then the web-safe text |
| Seo.AdviceShape | src/utils/colorUtils.js:415-435 | at most three texts; web-safe advice exactly when not web-safe; none exactly when both values are in [0.2, 0.8] and the colour is web-safe |
| Seo.SaturationAdviceFollowsScore | src/utils/colorUtils.js:379-435 | away from 0.8, saturation advice is given exactly when the saturation score is below 100 |
| Seo.SilentAtUpperEdge | src/utils/colorUtils.js:379-435 | at 0.8 the score is 50 but no advice is given |
| Seo.EvaluateSeo | src/utils/colorUtils.js:373-406 | the scores and web-safety of the parsed colour with the advice `getSEORecommendations` collects, or the zero report when the library fails |
| Seo.ReportScores | src/utils/colorUtils.js:379-395 | for values in [0, 1] every score lies in 0..100, and the total is 100 when both are strictly inside the band |
| Seo.ReportAdviceMatchesWebSafe | src/utils/colorUtils.js:383-395 | for a parsed colour, the web-safe advice is in the report exactly when the report says it is not web-safe |
| Seo.RefusedColorReport | src/utils/colorUtils.js:396-405 | a refused colour gets the zero report with no advice |
| ColorContext.Without | src/context/ColorContext.jsx:68-69 | the filtered favourites no longer hold the colour |
| ColorContext.WithoutCounts | src/context/ColorContext.jsx:68-69 | filtering removes every copy of the colour and keeps every other entry as often as before |
| ColorContext.WithoutInOrder | src/context/ColorContext.jsx:68-69 | the remaining entries keep their order |
| ColorContext.WithoutAbsent | src/context/ColorContext.jsx:68-69 | filtering out an absent colour changes nothing |
| ColorContext.ToggleFlips | src/context/ColorContext.jsx:66-75 | after a toggle the colour is a favourite exactly when it was not; removing keeps the others in order, adding puts it in front |
| ColorContext.ToggleTwice | src/context/ColorContext.jsx:66-75 | toggling a new colour twice restores the list; toggling a present colour twice moves it to the front, once |
| ColorContext.PushHistory | src/context/ColorContext.jsx:26-30 | the new entry comes first, the previous ones follow in order, and the length is capped at 10 |
| ColorContext.HistoryNewestFirst | src/context/ColorContext.jsx:26-30 | a full history drops its oldest entry, and the latest two entries come first, newest first |
| ColorContext.VarNameInjective | src/context/ColorContext.jsx:37 | different steps name different variables |
| ColorContext.StepsDistinct | src/context/ColorContext.jsx:33-35 | the eleven steps are distinct, and step 500 is the sixth |
| ColorContext.WrittenValues | src/context/ColorContext.jsx:34-39 | after the loop every written step holds its colour, and every other property is unchanged |
| ColorContext.EffectStyleValues | src/context/ColorContext.jsx:33-39 | the effect sets step k to scale colour k; 500 is the sixth colour, or the primary when the scale is shorter; other steps keep their old values |
| ColorContext.ToggleClassFlips | src/context/ColorContext.jsx:62 | toggling `dark` flips it, twice restores the classes, and no other class changes |
| ColorContext.RootElement.constructor | src/context/ColorContext.jsx:33 | a document root with the given style and classes |
| ColorContext.ColorProvider.constructor | src/context/ColorContext.jsx:9-40 | the initial state: default colour, hex format, no favourites, light mode, and the mount effect's history entry and variables |
| ColorContext.ColorProvider.WriteScaleVariables | src/context/ColorContext.jsx:34-39 | the loop writes one variable per step that has a colour and changes nothing else |
| ColorContext.ColorProvider.PrimaryColorEffect | src/context/ColorContext.jsx:18-40 | recomputes the scale and relatives, pushes a history entry and writes the variables, keeping the state valid |
| ColorContext.ColorProvider.SetPrimaryColor | src/context/ColorContext.jsx:18-40 | a new colour runs the effect; setting the same colour changes nothing else |
| ColorContext.ColorProvider.ToggleFavorite | src/context/ColorContext.jsx:66-75 | the favourites become the toggled list and nothing else changes |
| ColorContext.ColorProvider.ToggleDarkMode | src/context/ColorContext.jsx:60-63 | flips dark mode and the `dark` class and nothing else |
| ColorContext.ColorProvider.ChangeFormat | src/context/ColorContext.jsx:78-80 | sets the format and nothing else |
| ExportPanel.MapColorsToTailwindScale | src/components/ui/ExportColors.jsx:15-36 | the while loop builds the mapped scale: eleven primaries without a usable scale, else the scale padded with its last colour |
| ExportPanel.FallbackScale | src/components/ui/ExportColors.jsx:17-21 | without a scale of two or more colours every step is the primary colour |
| ExportPanel.PaddedScale | src/components/ui/ExportColors.jsx:23-27 | a usable scale is kept in front, the rest repeats its last colour, and eleven or more are kept whole |
| ExportPanel.ExportersKeepScale | src/components/ui/ExportColors.jsx:38-41 | the mapped scale has at least eleven colours, so the exporters' padding keeps it |
| ExportPanel.ExportedCode | src/components/ui/ExportColors.jsx:38-41 | the code shown is the export of the mapped scale |
| ExportPanel.PanelTailwindReadsBack | src/components/ui/ExportColors.jsx:38-41 | the panel's Tailwind export declares the eleven steps with the mapped colours |
| ExportPanel.FileExtension | src/components/ui/ExportColors.jsx:74-82 | each of the four names gets its own extension, exactly, and every other name gets `txt` |
| ExportPanel.ExtensionMatchesExport | src/components/ui/ExportColors.jsx:74-82 | for the four offered names (tailwind, css, scss, json) the extension matches the exported format; `CSS` exports CSS but is saved as `txt` |

## Left out

- The colour library (`chroma-js`): parsing, `hex()`, `hsl()`, `cmyk()`, `luminance()`, `scale().mode('lab').colors()` and `contrast` are uninterpreted functions of `Chroma.Library`. Their own correctness is not modelled.
- Floating point: the model computes on exact reals. A value that lands exactly on a `.5` rounding boundary, or a threshold of the score functions, can round differently in IEEE doubles.
- `console.error` calls: logging only, and not modelled.
- `localStorage` loading and saving of the favourites (`src/context/ColorContext.jsx:43-57`): the browser store is outside the model.
- React rendering, state batching and the order of effect runs: each operation is one atomic method on `ColorProvider`, and the primary-colour effect runs at the end of the method that changed the colour.
- `Date.now()`: the timestamp is the parameter `now`.
- The DOM: the document root is the class `RootElement`, holding a style map and a class set.
- Clipboard copying, the file download and its `Blob`, toasts and `highlightSyntax` of the export panel: user-interface and browser I/O.
- `exportColors` with a non-array or with non-string list entries: the model takes a list of strings, and the stylesheet generators take `Option` for a missing list.
- Text.ToLower: lowers ASCII letters and the Kelvin sign only, not the full Unicode case mapping of `toLowerCase`.
- Json.Stringify: writes backspace, tab, newline, form feed and carriage return as `\b \t \n \f \r` and the other code points below `0x20` as `\u00XX`, as `JSON.stringify` does, but does not model the escaping of lone surrogates, which Dafny characters cannot hold.
- ExportPanel.MapColorsToTailwindScale: does not model its `catch` branch, which no input of the modelled types can reach.
- The undefined (`NaN`) hue the library gives a grey is `None` in the model; the `hsl` output prints it as 0, as `h || 0` does (`Conversion.UndefinedHuePrintsZero`), and the rotations of `generateRelatedColors` keep it undefined (`Harmony.AchromaticRelatives`).
- Validation.CmykChannel: the percentages are divided by 100 before the product, as the source does, but the product is an exact real, not a double.
