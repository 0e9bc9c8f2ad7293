/** The colour library the code calls (chroma-js), reduced to the values
    the code reads from it. Its parsing, conversions, Lab interpolation and
    contrast are not modelled: a `Library` value stands for any such
    library, and everything proved holds for all of them. `None` stands for
    a call that throws. */
module Chroma {
  import opened Wrappers

  /** The `.rgb()` triple, channels 0..255 in floating point. */
  datatype RgbReal = RgbReal(r: real, g: real, b: real)

  /** The `.hsl()` triple; the hue is `None` where the library gives NaN
      (achromatic colours). Saturation and lightness are fractions. */
  datatype Hsl = Hsl(hue: Option<real>, sat: real, light: real)

  /** The `.cmyk()` quadruple, fractions. */
  datatype CmykReal = CmykReal(c: real, m: real, y: real, k: real)

  /** A parsed colour object, seen through its accessors. */
  datatype Color = Color(hex: string, rgb: RgbReal, hsl: Hsl, cmyk: CmykReal, luminance: real)

  datatype Library = Library(
    // `chroma(text)`
    parse: string -> Option<Color>,
    // `chroma.rgb(r, g, b)`
    fromRgb: (int, int, int) -> Color,
    // `chroma.hsl(h, s, l).hex()`
    hslHex: Hsl -> string,
    // the lightest/base/darkest Lab scale of `generateColorScale`, sampled at n points
    scale: (string, nat) -> Option<seq<string>>,
    // `chroma.contrast(a, b)`
    contrast: (string, string) -> Option<real>)
}
