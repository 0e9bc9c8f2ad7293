/** The related colours of a base colour (`generateRelatedColors`): its
    hue turned on the colour wheel, saturation and lightness kept. */
module Harmony {
  import opened Wrappers
  import opened JsNumber
  import opened Chroma

  datatype Related = Related(complementary: string, analogous: seq<string>, triadic: seq<string>)

  /** `x % 360` of a hue; a NaN hue stays NaN. */
  function Wrap(h: Option<real>): Option<real> {
    if h.Some? then Some(Remainder(h.value, 360.0)) else None
  }

  /** A hue plus an offset (NaN plus anything is NaN). */
  function Shift(h: Option<real>, d: real): Option<real> {
    if h.Some? then Some(h.value + d) else None
  }

  /** The colour with a given hue and the base's saturation and lightness. */
  function WithHue(base: Hsl, h: Option<real>): Hsl {
    Hsl(h, base.sat, base.light)
  }

  /** The five colours the code asks the library for, in order:
      complementary, the two analogous ones, the two triadic ones; the
      second analogous hue is computed as `(h - 30 + 360) % 360`. */
  function Wheel(base: Hsl): (w: seq<Hsl>)
    ensures |w| == 5
    ensures forall i :: 0 <= i < 5 ==> w[i].sat == base.sat && w[i].light == base.light
  {
    var h := base.hue;
    [WithHue(base, Wrap(Shift(h, 180.0))),
     WithHue(base, Wrap(Shift(h, 30.0))), WithHue(base, Wrap(Shift(Shift(h, -30.0), 360.0))),
     WithHue(base, Wrap(Shift(h, 120.0))), WithHue(base, Wrap(Shift(h, 240.0)))]
  }

  /** `generateRelatedColors`: the hexadecimal codes of the wheel colours;
      the base text itself in every place when the library refuses it. */
  function GenerateRelatedColors(lib: Library, base: string): (r: Related)
    ensures |r.analogous| == 2 && |r.triadic| == 2
    ensures lib.parse(base).None? ==> r == Related(base, [base, base], [base, base])
  {
    match lib.parse(base)
    case None => Related(base, [base, base], [base, base])
    case Some(c) =>
      var w := Wheel(c.hsl);
      Related(lib.hslHex(w[0]), [lib.hslHex(w[1]), lib.hslHex(w[2])], [lib.hslHex(w[3]), lib.hslHex(w[4])])
  }

  predicate OnWheel(h: Option<real>) {
    h.Some? && 0.0 <= h.value < 360.0
  }

  /** For a hue on the wheel and a non-negative offset below one turn,
      the remainder subtracts at most one turn, so the result stays on the
      wheel. */
  lemma TurnOnWheel(h: Option<real>, d: real)
    requires OnWheel(h) && 0.0 <= d < 360.0
    ensures OnWheel(Wrap(Shift(h, d)))
    ensures Wrap(Shift(h, d)).value ==
      if h.value + d < 360.0 then h.value + d else h.value + d - 360.0
  {
    RemainderBelowTwice(h.value + d);
  }

  /** Every related hue of a hue on the wheel is on the wheel. */
  lemma WheelOnWheel(base: Hsl)
    requires OnWheel(base.hue)
    ensures forall i :: 0 <= i < 5 ==> OnWheel(Wheel(base)[i].hue)
  {
    var h := base.hue;
    TurnOnWheel(h, 180.0);
    TurnOnWheel(h, 30.0);
    TurnOnWheel(h, 120.0);
    TurnOnWheel(h, 240.0);
    assert Shift(Shift(h, -30.0), 360.0) == Shift(h, 330.0);
    TurnOnWheel(h, 330.0);
  }

  /** The complementary hue of the complementary hue is the hue itself. */
  lemma ComplementInvolutive(h: Option<real>)
    requires OnWheel(h)
    ensures Wrap(Shift(Wrap(Shift(h, 180.0)), 180.0)) == h
  {
    TurnOnWheel(h, 180.0);
    TurnOnWheel(Wrap(Shift(h, 180.0)), 180.0);
  }

  /** The second analogous step turns back the first: from the first
      analogous hue it leads back to the base hue. */
  lemma AnalogousInverse(h: Option<real>)
    requires OnWheel(h)
    ensures Wrap(Shift(Shift(Wrap(Shift(h, 30.0)), -30.0), 360.0)) == h
  {
    var a := Wrap(Shift(h, 30.0));
    TurnOnWheel(h, 30.0);
    assert Shift(Shift(a, -30.0), 360.0) == Shift(a, 330.0);
    TurnOnWheel(a, 330.0);
  }

  /** The triadic hues are one third of a turn apart: the second is the
      first turned by 120 degrees, and a third such turn comes back to the
      base hue. */
  lemma TriadicThirds(h: Option<real>)
    requires OnWheel(h)
    ensures Wrap(Shift(Wrap(Shift(h, 120.0)), 120.0)) == Wrap(Shift(h, 240.0))
    ensures Wrap(Shift(Wrap(Shift(h, 240.0)), 120.0)) == h
  {
    TurnOnWheel(h, 120.0);
    TurnOnWheel(h, 240.0);
    TurnOnWheel(Wrap(Shift(h, 120.0)), 120.0);
    TurnOnWheel(Wrap(Shift(h, 240.0)), 120.0);
  }

  /** An achromatic colour (NaN hue) has no distinct relatives: all five
      are the one colour of NaN hue with the base's saturation and
      lightness. */
  lemma AchromaticRelatives(lib: Library, base: string)
    requires lib.parse(base).Some? && lib.parse(base).value.hsl.hue.None?
    ensures var hsl := lib.parse(base).value.hsl;
      var x := lib.hslHex(Hsl(None, hsl.sat, hsl.light));
      GenerateRelatedColors(lib, base) == Related(x, [x, x], [x, x])
  {
  }
}
