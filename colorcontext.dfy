/** The application state of `ColorProvider`: the primary colour and what
    is derived from it, the favourites, the dark-mode switch, the format and
    the bounded history, together with the CSS custom properties it writes
    on the document's root element. */
module ColorContext {
  import opened Text
  import opened Chroma
  import Conversion
  import Harmony
  import Exporters

  // Favourites

  /** `prev.filter(c => c !== color)`. */
  function Without(s: seq<string>, color: string): (r: seq<string>)
    ensures color !in r && |r| <= |s|
  {
    if s == [] then [] else (if s[0] == color then [] else [s[0]]) + Without(s[1..], color)
  }

  /** `a` can be obtained from `b` by deleting entries. */
  predicate IsSubsequence(a: seq<string>, b: seq<string>)
    decreases |b|
  {
    a == [] || (b != [] && if a[0] == b[0] then IsSubsequence(a[1..], b[1..]) else IsSubsequence(a, b[1..]))
  }

  /** Removing a colour keeps every other entry as often as before ... */
  lemma {:induction false} WithoutCounts(s: seq<string>, color: string)
    ensures multiset(Without(s, color)) == multiset(s)[color := 0]
  {
    if s != [] {
      WithoutCounts(s[1..], color);
      assert s == [s[0]] + s[1..];
    }
  }

  /** ... and in their order. */
  lemma {:induction false} WithoutInOrder(s: seq<string>, color: string)
    ensures IsSubsequence(Without(s, color), s)
  {
    if s != [] {
      WithoutInOrder(s[1..], color);
      var w := Without(s[1..], color);
      if s[0] != color {
        assert Without(s, color) == [s[0]] + w;
        assert Without(s, color)[1..] == w;
      } else {
        assert Without(s, color) == w;
        assert w == [] || w[0] != s[0];
      }
    }
  }

  lemma {:induction false} WithoutAbsent(s: seq<string>, color: string)
    requires color !in s
    ensures Without(s, color) == s
  {
    if s != [] {
      WithoutAbsent(s[1..], color);
      assert s == [s[0]] + s[1..];
    }
  }

  /** The `toggleFavorite` updater: remove the colour when it is a
      favourite, otherwise put it first as the most recent. */
  function Toggled(prev: seq<string>, color: string): seq<string> {
    if color in prev then Without(prev, color) else [color] + prev
  }

  /** Toggling flips whether the colour is a favourite and leaves every
      other favourite where it was relative to the rest. */
  lemma ToggleFlips(prev: seq<string>, color: string)
    ensures color in Toggled(prev, color) <==> color !in prev
    ensures color in prev ==> (IsSubsequence(Toggled(prev, color), prev) &&
      multiset(Toggled(prev, color)) == multiset(prev)[color := 0])
    ensures color !in prev ==> Toggled(prev, color)[1..] == prev
  {
    WithoutCounts(prev, color);
    WithoutInOrder(prev, color);
  }

  /** Toggling a new colour twice restores the favourites; toggling a
      present one twice moves it to the front and removes its duplicates. */
  lemma ToggleTwice(prev: seq<string>, color: string)
    ensures color !in prev ==> Toggled(Toggled(prev, color), color) == prev
    ensures color in prev ==> Toggled(Toggled(prev, color), color) == [color] + Without(prev, color)
  {
    var once := Toggled(prev, color);
    ToggleFlips(prev, color);
    if color !in prev {
      assert once == [color] + prev;
      WithoutAbsent(prev, color);
      assert Without(once, color) == Without(prev, color);
    }
  }

  // History

  datatype HistoryEntry = HistoryEntry(color: string, timestamp: int)

  const HistoryLimit: nat := 10

  /** The history updater: the new entry first, then the earlier
      entries, cut to `HistoryLimit`. */
  function PushHistory(prev: seq<HistoryEntry>, e: HistoryEntry): (r: seq<HistoryEntry>)
    ensures |r| == if |prev| < HistoryLimit then |prev| + 1 else HistoryLimit
    ensures r[0] == e
    ensures forall i :: 1 <= i < |r| ==> r[i] == prev[i - 1]
  {
    var n := [e] + prev;
    n[..if |n| < HistoryLimit then |n| else HistoryLimit]
  }

  /** A full history loses its oldest entry, and the history is newest
      first: two pushes in a row put the later one first. */
  lemma HistoryNewestFirst(prev: seq<HistoryEntry>, a: HistoryEntry, b: HistoryEntry)
    ensures |prev| >= HistoryLimit ==> PushHistory(prev, a) == [a] + prev[..HistoryLimit - 1]
    ensures PushHistory(PushHistory(prev, a), b)[..2] == [b, a]
  {
    var once := PushHistory(prev, a);
    if |prev| >= HistoryLimit {
      assert PushHistory(prev, a)[1..] == prev[..HistoryLimit - 1];
    }
    var twice := PushHistory(once, b);
    assert twice[1] == once[0];
  }

  // CSS custom properties

  /** `--color-primary-${step}`. */
  function VarName(step: nat): string {
    "--color-primary-" + NatToString(step)
  }

  const PrimaryVariable: string := "--color-primary-500"

  lemma VarNameInjective(a: nat, b: nat)
    ensures VarName(a) == VarName(b) ==> a == b
  {
    if VarName(a) == VarName(b) {
      assert NatToString(a) == VarName(a)[16..];
      NatToStringInjective(a, b);
    }
  }

  predicate Distinct(steps: seq<nat>) {
    forall i, j :: 0 <= i < j < |steps| ==> steps[i] != steps[j]
  }

  /** The properties after the first `n` writes of the loop, each giving
      step `steps[i]` the colour `scale[i]`. */
  function Written(m: map<string, string>, steps: seq<nat>, scale: seq<string>, n: nat): map<string, string>
    requires n <= |steps| && n <= |scale|
  {
    if n == 0 then m else Written(m, steps, scale, n - 1)[VarName(steps[n - 1]) := scale[n - 1]]
  }

  /** With distinct steps, each written step holds its colour, and every
      other property keeps its value. */
  lemma {:induction false} WrittenValues(m: map<string, string>, steps: seq<nat>, scale: seq<string>, n: nat, key: string)
    requires n <= |steps| && n <= |scale| && Distinct(steps)
    ensures forall k :: 0 <= k < n ==> (VarName(steps[k]) in Written(m, steps, scale, n) &&
      Written(m, steps, scale, n)[VarName(steps[k])] == scale[k])
    ensures (forall k :: 0 <= k < n ==> key != VarName(steps[k])) ==>
      (key in Written(m, steps, scale, n) <==> key in m) &&
      (key in m ==> Written(m, steps, scale, n)[key] == m[key])
  {
    if n > 0 {
      WrittenValues(m, steps, scale, n - 1, key);
      forall k | 0 <= k < n - 1
        ensures VarName(steps[k]) != VarName(steps[n - 1])
      {
        VarNameInjective(steps[k], steps[n - 1]);
      }
    }
  }

  lemma StepsDistinct()
    ensures Distinct(Exporters.Steps)
    ensures VarName(Exporters.Steps[5]) == PrimaryVariable
  {
    assert NatToString(500) == "500";
  }

  /** The properties after the effect: `--color-primary-500` set to the
      primary colour, then the step of each scale entry set to it. */
  function EffectStyle(m: map<string, string>, primary: string, scale: seq<string>): map<string, string> {
    var n := if |scale| < |Exporters.Steps| then |scale| else |Exporters.Steps|;
    Written(m[PrimaryVariable := primary], Exporters.Steps, scale, n)
  }

  /** What the effect leaves: step `Steps[k]` holds `scale[k]` for every
      entry the scale has, `--color-primary-500` ends as the sixth entry or,
      for a shorter scale, the primary colour, and the steps beyond the
      scale keep the values written before. */
  lemma EffectStyleValues(m: map<string, string>, primary: string, scale: seq<string>)
    ensures var st := EffectStyle(m, primary, scale);
      forall k :: 0 <= k < |scale| && k < |Exporters.Steps| ==>
        VarName(Exporters.Steps[k]) in st && st[VarName(Exporters.Steps[k])] == scale[k]
    ensures var st := EffectStyle(m, primary, scale);
      PrimaryVariable in st && st[PrimaryVariable] == if |scale| > 5 then scale[5] else primary
    ensures forall k :: |scale| <= k < |Exporters.Steps| ==>
      var key := VarName(Exporters.Steps[k]);
      key != PrimaryVariable ==> ((key in EffectStyle(m, primary, scale) <==> key in m) &&
        (key in m ==> EffectStyle(m, primary, scale)[key] == m[key]))
  {
    var steps := Exporters.Steps;
    StepsDistinct();
    var n := if |scale| < |steps| then |scale| else |steps|;
    var m0 := m[PrimaryVariable := primary];
    WrittenValues(m0, steps, scale, n, PrimaryVariable);
    if |scale| <= 5 {
      forall k | 0 <= k < n
        ensures PrimaryVariable != VarName(steps[k])
      {
        VarNameInjective(steps[k], steps[5]);
      }
    }
    forall k | |scale| <= k < |steps|
      ensures var key := VarName(steps[k]);
        key != PrimaryVariable ==> ((key in EffectStyle(m, primary, scale) <==> key in m) &&
          (key in m ==> EffectStyle(m, primary, scale)[key] == m[key]))
    {
      var key := VarName(steps[k]);
      WrittenValues(m0, steps, scale, n, key);
      forall j | 0 <= j < n
        ensures key != VarName(steps[j])
      {
        VarNameInjective(steps[k], steps[j]);
      }
    }
  }

  /** `classList.toggle('dark')`. */
  function ToggleClass(classes: set<string>, name: string): set<string> {
    if name in classes then classes - {name} else classes + {name}
  }

  lemma ToggleClassFlips(classes: set<string>, name: string)
    ensures name in ToggleClass(classes, name) <==> name !in classes
    ensures ToggleClass(ToggleClass(classes, name), name) == classes
    ensures forall x :: x != name ==> (x in ToggleClass(classes, name) <==> x in classes)
  {
  }

  /** The document's root element: its inline custom properties and its
      class list. */
  class RootElement {
    var style: map<string, string>
    var classes: set<string>

    constructor(style: map<string, string>, classes: set<string>)
      ensures this.style == style && this.classes == classes
    {
      this.style := style;
      this.classes := classes;
    }
  }

  /** The provider's state. `lib` is the colour library; `now` arguments
      stand for `Date.now()`. */
  class ColorProvider {
    const lib: Library
    const root: RootElement
    var primaryColor: string
    var colorScale: seq<string>
    var relatedColors: Harmony.Related
    var format: string
    var favorites: seq<string>
    var darkMode: bool
    var history: seq<HistoryEntry>

    /** The derived state follows the primary colour, the newest history
        entry is the primary colour, the history is bounded, and the root
        element carries the scale's custom properties. */
    predicate Valid()
      reads this, root
    {
      colorScale == Conversion.GenerateColorScale(lib, primaryColor, 11) &&
      relatedColors == Harmony.GenerateRelatedColors(lib, primaryColor) &&
      1 <= |history| <= HistoryLimit && history[0].color == primaryColor &&
      PrimaryVariable in root.style &&
      root.style[PrimaryVariable] == (if |colorScale| > 5 then colorScale[5] else primaryColor) &&
      forall k :: 0 <= k < |colorScale| && k < |Exporters.Steps| ==>
        VarName(Exporters.Steps[k]) in root.style && root.style[VarName(Exporters.Steps[k])] == colorScale[k]
    }

    /** The initial state, followed by the effect's first run on mount. */
    constructor(lib: Library, root: RootElement, now: int)
      modifies root
      ensures Valid()
      ensures this.lib == lib && this.root == root
      ensures primaryColor == Exporters.DefaultColor && format == "hex" && favorites == []
      ensures !darkMode && history == [HistoryEntry(Exporters.DefaultColor, now)]
      ensures root.style == EffectStyle(old(root.style), Exporters.DefaultColor, colorScale)
      ensures root.classes == old(root.classes)
    {
      this.lib := lib;
      this.root := root;
      primaryColor := Exporters.DefaultColor;
      colorScale := [];
      relatedColors := Harmony.Related("", [], []);
      format := "hex";
      favorites := [];
      darkMode := false;
      history := [];
      new;
      PrimaryColorEffect(now);
    }

    /** The loop over the scale: step `steps[i]` gets entry `i` while
        there are steps. */
    method WriteScaleVariables(steps: seq<nat>, scale: seq<string>)
      modifies root
      ensures root.style == Written(old(root.style), steps, scale, if |scale| < |steps| then |scale| else |steps|)
      ensures root.classes == old(root.classes)
    {
      for i := 0 to |scale|
        invariant root.style == Written(old(root.style), steps, scale, if i < |steps| then i else |steps|)
        invariant root.classes == old(root.classes)
      {
        if i < |steps| {
          root.style := root.style[VarName(steps[i]) := scale[i]];
        }
      }
    }

    /** The effect on `primaryColor`: the scale and related colours, a
        history entry, and the custom properties. */
    method PrimaryColorEffect(now: int)
      requires |history| <= HistoryLimit
      modifies this, root
      ensures Valid()
      ensures colorScale == Conversion.GenerateColorScale(lib, primaryColor, 11)
      ensures relatedColors == Harmony.GenerateRelatedColors(lib, primaryColor)
      ensures history == PushHistory(old(history), HistoryEntry(primaryColor, now))
      ensures root.style == EffectStyle(old(root.style), primaryColor, colorScale)
      ensures root.classes == old(root.classes)
      ensures primaryColor == old(primaryColor) && format == old(format)
      ensures favorites == old(favorites) && darkMode == old(darkMode)
    {
      var scale := Conversion.GenerateColorScale(lib, primaryColor, 11);
      colorScale := scale;
      relatedColors := Harmony.GenerateRelatedColors(lib, primaryColor);
      history := PushHistory(history, HistoryEntry(primaryColor, now));
      ghost var before := root.style;
      root.style := root.style[PrimaryVariable := primaryColor];
      WriteScaleVariables(Exporters.Steps, scale);
      EffectStyleValues(before, primaryColor, scale);
    }

    /** `setPrimaryColor`: the effect runs only when the value changes. */
    method SetPrimaryColor(color: string, now: int)
      requires Valid()
      modifies this, root
      ensures Valid() && primaryColor == color
      ensures old(primaryColor) == color ==> history == old(history) && root.style == old(root.style)
      ensures old(primaryColor) != color ==>
        history == PushHistory(old(history), HistoryEntry(color, now)) &&
        root.style == EffectStyle(old(root.style), color, colorScale)
      ensures root.classes == old(root.classes)
      ensures format == old(format) && favorites == old(favorites) && darkMode == old(darkMode)
    {
      if color != primaryColor {
        primaryColor := color;
        PrimaryColorEffect(now);
      }
    }

    /** `toggleFavorite`. */
    method ToggleFavorite(color: string)
      requires Valid()
      modifies this
      ensures Valid()
      ensures favorites == Toggled(old(favorites), color)
      ensures primaryColor == old(primaryColor) && history == old(history) && format == old(format)
      ensures darkMode == old(darkMode)
    {
      favorites := Toggled(favorites, color);
    }

    /** `toggleDarkMode`: the flag and the root element's `dark` class flip
        together. */
    method ToggleDarkMode()
      requires Valid()
      modifies this, root
      ensures Valid()
      ensures darkMode == !old(darkMode)
      ensures root.classes == ToggleClass(old(root.classes), "dark") && root.style == old(root.style)
      ensures primaryColor == old(primaryColor) && history == old(history) && favorites == old(favorites)
      ensures format == old(format)
    {
      darkMode := !darkMode;
      root.classes := ToggleClass(root.classes, "dark");
    }

    /** `changeFormat` (and `setFormat`): any text is stored. */
    method ChangeFormat(newFormat: string)
      requires Valid()
      modifies this
      ensures Valid()
      ensures format == newFormat
      ensures primaryColor == old(primaryColor) && history == old(history) && favorites == old(favorites)
      ensures darkMode == old(darkMode)
    {
      format := newFormat;
    }
  }
}
