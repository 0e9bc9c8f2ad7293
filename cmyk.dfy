/** The CMYK text pattern shared by `isValidCMYK` and `parseCMYK`: the
    whole text is the keyword `cmyk` in any ASCII case, `(`, then four
    fields separated by `,` and closed by `)`; each field is a number of one
    to three decimal digits followed by `%`, and any run of whitespace may
    stand before and after each field. Since spaces, digits, `%`, `,` and
    `)` are disjoint classes, the pattern has one way to match at most, and
    a left-to-right scan that takes every run of spaces or digits whole
    finds it. `Parse` is that scan; `Render` glues the pieces of a match
    back together, and the two are proved inverse. */
module CmykSyntax {
  import opened Wrappers
  import opened Text

  /** One `\s*(\d{1,3})%` piece: the spaces before the number, and its digits. */
  datatype Field = Field(space: string, digits: string)

  /** A field and the spaces that follow it before its `,` or `)`. */
  datatype Item = Item(field: Field, gap: string)

  /** A matched text cut where the pattern cuts it: the keyword and the
      four items, the first three closed by `,` and the last by `)`. */
  datatype CmykText = CmykText(keyword: string, c: Item, m: Item, y: Item, k: Item)

  /** `cmyk` in any mix of ASCII cases. */
  predicate IsKeyword(s: string) {
    |s| == 4 && AsciiLower(s[0]) == 'c' && AsciiLower(s[1]) == 'm' &&
    AsciiLower(s[2]) == 'y' && AsciiLower(s[3]) == 'k'
  }

  predicate FieldOk(f: Field) {
    AllSpace(f.space) && 1 <= |f.digits| <= 3 && AllDigits(f.digits)
  }

  predicate ItemOk(it: Item) {
    FieldOk(it.field) && AllSpace(it.gap)
  }

  predicate WellFormed(t: CmykText) {
    IsKeyword(t.keyword) && ItemOk(t.c) && ItemOk(t.m) && ItemOk(t.y) && ItemOk(t.k)
  }

  function FieldText(f: Field): string {
    f.space + f.digits + "%"
  }

  function ItemText(it: Item, close: char): string {
    FieldText(it.field) + (it.gap + [close])
  }

  function Render(t: CmykText): string {
    t.keyword + "(" +
      (ItemText(t.c, ',') + (ItemText(t.m, ',') + (ItemText(t.y, ',') + ItemText(t.k, ')'))))
  }

  /** The number captured by group i + 1, as `parseInt(group, 10)` reads it. */
  function Value(t: CmykText, i: nat): nat
    requires WellFormed(t) && i < 4
  {
    var it := if i == 0 then t.c else if i == 1 then t.m else if i == 2 then t.y else t.k;
    DecimalValue(it.field.digits)
  }

  // Scanning. Positions index the whole text, so the scan never cuts it.

  /** Where the run of `\s` characters that starts at position i ends. */
  function SpaceEnd(s: string, i: nat): (j: nat)
    requires i <= |s|
    ensures i <= j <= |s|
    decreases |s| - i
  {
    if i < |s| && IsJsSpace(s[i]) then SpaceEnd(s, i + 1) else i
  }

  /** Where the run of `\d` characters that starts at position i ends. */
  function DigitEnd(s: string, i: nat): (j: nat)
    requires i <= |s|
    ensures i <= j <= |s|
    decreases |s| - i
  {
    if i < |s| && IsDigit(s[i]) then DigitEnd(s, i + 1) else i
  }

  /** Where the pieces of one item end: its spaces and its digits; the
      position of its closing character, and the position after it. */
  datatype Ends = Ends(space: nat, digits: nat, closing: nat, next: nat)

  /** Matches `\s*(\d{1,3})%\s*` and then the character `close` at position i. */
  function ScanItem(s: string, i: nat, close: char): (r: Option<Ends>)
    requires i <= |s|
    ensures r.Some? ==> i <= r.value.space < r.value.digits < r.value.closing < r.value.next <= |s|
  {
    var j := SpaceEnd(s, i);
    var k := DigitEnd(s, j);
    if 1 <= k - j <= 3 && k < |s| && s[k] == '%' then
      var g := SpaceEnd(s, k + 1);
      if g < |s| && s[g] == close then Some(Ends(j, k, g, g + 1)) else None
    else
      None
  }

  /** The item that a scan from position i found. */
  function Cut(s: string, i: nat, e: Ends): Item
    requires i <= e.space < e.digits < e.closing < |s|
  {
    Item(Field(s[i..e.space], s[e.space..e.digits]), s[e.digits + 1..e.closing])
  }

  /** The whole pattern, anchored at both ends; None where it does not match. */
  function Parse(s: string): Option<CmykText> {
    if |s| < 5 || !IsKeyword(s[..4]) || s[4] != '(' then
      None
    else
      var c :- ScanItem(s, 5, ',');
      var m :- ScanItem(s, c.next, ',');
      var y :- ScanItem(s, m.next, ',');
      var k :- ScanItem(s, y.next, ')');
      if k.next == |s| then
        Some(CmykText(s[..4], Cut(s, 5, c), Cut(s, c.next, m), Cut(s, m.next, y), Cut(s, y.next, k)))
      else
        None
  }

  // Facts about positions.

  /** w occurs in s at position i. */
  predicate At(s: string, i: nat, w: string) {
    i + |w| <= |s| && forall m {:trigger w[m]} :: 0 <= m < |w| ==> s[i + m] == w[m]
  }

  lemma AtConcat(s: string, i: nat, a: string, b: string)
    requires At(s, i, a + b)
    ensures At(s, i, a) && At(s, i + |a|, b)
  {
    forall m | 0 <= m < |a| ensures s[i + m] == a[m] {
      assert (a + b)[m] == a[m];
    }
    forall m | 0 <= m < |b| ensures s[i + |a| + m] == b[m] {
      assert (a + b)[|a| + m] == b[m];
    }
  }

  /** An occurrence of spaces is a run of spaces in s. */
  lemma AtSpaces(s: string, i: nat, w: string)
    requires At(s, i, w) && AllSpace(w)
    ensures forall k :: i <= k < i + |w| ==> IsJsSpace(s[k])
  {
    forall k | i <= k < i + |w| ensures IsJsSpace(s[k]) {
      assert s[i + (k - i)] == w[k - i];
    }
  }

  /** An occurrence of digits is a run of digits in s. */
  lemma AtDigits(s: string, i: nat, w: string)
    requires At(s, i, w) && AllDigits(w)
    ensures forall k :: i <= k < i + |w| ==> IsDigit(s[k])
  {
    forall k | i <= k < i + |w| ensures IsDigit(s[k]) {
      assert s[i + (k - i)] == w[k - i];
    }
  }

  lemma AtSlice(s: string, i: nat, w: string)
    requires At(s, i, w)
    ensures s[i..i + |w|] == w
  {
  }

  lemma AtAppend(a: string, b: string)
    ensures At(a + b, |a|, b)
  {
  }

  lemma {:induction false} SpaceEndOf(s: string, i: nat, j: nat)
    requires i <= j <= |s|
    requires forall k :: i <= k < j ==> IsJsSpace(s[k])
    requires j == |s| || !IsJsSpace(s[j])
    ensures SpaceEnd(s, i) == j
    decreases j - i
  {
    if i < j {
      SpaceEndOf(s, i + 1, j);
    }
  }

  lemma {:induction false} DigitEndOf(s: string, i: nat, j: nat)
    requires i <= j <= |s|
    requires forall k :: i <= k < j ==> IsDigit(s[k])
    requires j == |s| || !IsDigit(s[j])
    ensures DigitEnd(s, i) == j
    decreases j - i
  {
    if i < j {
      DigitEndOf(s, i + 1, j);
    }
  }

  lemma {:induction false} SpaceEndSpaces(s: string, i: nat)
    requires i <= |s|
    ensures AllSpace(s[i..SpaceEnd(s, i)])
    decreases |s| - i
  {
    if i < |s| && IsJsSpace(s[i]) {
      SpaceEndSpaces(s, i + 1);
      assert s[i..SpaceEnd(s, i)] == [s[i]] + s[i + 1..SpaceEnd(s, i)];
    }
  }

  lemma {:induction false} DigitEndDigits(s: string, i: nat)
    requires i <= |s|
    ensures AllDigits(s[i..DigitEnd(s, i)])
    decreases |s| - i
  {
    if i < |s| && IsDigit(s[i]) {
      DigitEndDigits(s, i + 1);
      assert s[i..DigitEnd(s, i)] == [s[i]] + s[i + 1..DigitEnd(s, i)];
    }
  }

  lemma SliceSplit(s: string, i: nat, j: nat, k: nat)
    requires i <= j <= k <= |s|
    ensures s[i..j] + s[j..k] == s[i..k]
  {
  }

  lemma SliceSplitEnd(s: string, i: nat, j: nat)
    requires i <= j <= |s|
    ensures s[i..j] + s[j..] == s[i..]
  {
  }

  lemma SliceOne(s: string, i: nat)
    requires i < |s|
    ensures s[i..i + 1] == [s[i]]
  {
  }

  lemma CutAt(s: string, i: nat)
    requires i < |s|
    ensures s[..i] + [s[i]] + s[i + 1..] == s
  {
  }

  // Rendering parses back.

  /** Where the pieces of an item rendered at position i end. */
  function EndsOf(i: nat, it: Item, close: char): Ends {
    var k := i + |it.field.space| + |it.field.digits|;
    Ends(i + |it.field.space|, k, k + 1 + |it.gap|, i + |ItemText(it, close)|)
  }

  /** Where the pieces of an item rendered at position i lie. */
  lemma ItemPieces(s: string, i: nat, it: Item, close: char) returns (j: nat, k: nat, g: nat)
    requires At(s, i, ItemText(it, close))
    ensures j == i + |it.field.space| && k == j + |it.field.digits| && g == k + 1 + |it.gap|
    ensures At(s, i, it.field.space) && At(s, j, it.field.digits) && At(s, k + 1, it.gap)
    ensures g < |s| && s[k] == '%' && s[g] == close
  {
    var f := it.field;
    j, k := i + |f.space|, i + |f.space| + |f.digits|;
    g := k + 1 + |it.gap|;
    AtConcat(s, i, FieldText(f), it.gap + [close]);
    AtConcat(s, i, f.space + f.digits, "%");
    AtConcat(s, i, f.space, f.digits);
    AtConcat(s, k + 1, it.gap, [close]);
    assert s[k + 0] == "%"[0];
    assert s[k + 1 + |it.gap| + 0] == [close][0];
  }

  lemma ScanRoundTrip(s: string, i: nat, it: Item, close: char)
    requires ItemOk(it) && !IsJsSpace(close) && At(s, i, ItemText(it, close))
    ensures ScanItem(s, i, close) == Some(EndsOf(i, it, close))
  {
    var j, k, g := ItemPieces(s, i, it, close);
    AtSpaces(s, i, it.field.space);
    AtDigits(s, j, it.field.digits);
    AtSpaces(s, k + 1, it.gap);
    assert s[j + 0] == it.field.digits[0];
    SpaceEndOf(s, i, j);
    DigitEndOf(s, j, k);
    SpaceEndOf(s, k + 1, g);
    ScanSteps(s, i, close, j, k);
  }

  lemma CutRoundTrip(s: string, i: nat, it: Item, close: char)
    requires 1 <= |it.field.digits| && At(s, i, ItemText(it, close))
    ensures var e := EndsOf(i, it, close);
      e.closing < |s| && e.next == e.closing + 1 && Cut(s, i, e) == it
  {
    var j, k, g := ItemPieces(s, i, it, close);
    AtSlice(s, i, it.field.space);
    AtSlice(s, j, it.field.digits);
    AtSlice(s, k + 1, it.gap);
  }

  /** The scan from position i, closed by `close`, ends as e and cuts out it. */
  predicate Found(s: string, i: nat, close: char, e: Ends, it: Item) {
    i <= |s| && ScanItem(s, i, close) == Some(e) && Cut(s, i, e) == it
  }

  /** An item rendered in front of the rest of the text scans back, and the
      rest follows it. */
  lemma ItemThen(s: string, i: nat, it: Item, close: char, rest: string) returns (e: Ends)
    requires ItemOk(it) && !IsJsSpace(close) && At(s, i, ItemText(it, close) + rest)
    ensures Found(s, i, close, e, it) && e.next == i + |ItemText(it, close)|
    ensures At(s, e.next, rest)
  {
    AtConcat(s, i, ItemText(it, close), rest);
    e := ItemLast(s, i, it, close);
  }

  /** An item rendered at position i scans back. */
  lemma ItemLast(s: string, i: nat, it: Item, close: char) returns (e: Ends)
    requires ItemOk(it) && !IsJsSpace(close) && At(s, i, ItemText(it, close))
    ensures Found(s, i, close, e, it) && e.next == i + |ItemText(it, close)|
  {
    e := EndsOf(i, it, close);
    ScanRoundTrip(s, i, it, close);
    CutRoundTrip(s, i, it, close);
  }

  /** Every text the pattern can match is matched, with the same pieces. */
  lemma ParseRender(t: CmykText)
    requires WellFormed(t)
    ensures Parse(Render(t)) == Some(t)
  {
    var s := Render(t);
    var rest := ItemText(t.c, ',') + (ItemText(t.m, ',') + (ItemText(t.y, ',') + ItemText(t.k, ')')));
    assert s[..4] == t.keyword;
    AtAppend(t.keyword + "(", rest);
    ParseItemsAt(s, t);
  }

  /** The rendered items, found after the `cmyk(` of a text, parse as the
      items. Each step scans one item and passes on where it ends. */
  lemma ParseItemsAt(s: string, t: CmykText)
    requires WellFormed(t) && 5 <= |s| && s[..4] == t.keyword && s[4] == '('
    requires var rest := ItemText(t.c, ',') + (ItemText(t.m, ',') + (ItemText(t.y, ',') + ItemText(t.k, ')')));
      At(s, 5, rest) && |s| == 5 + |rest|
    ensures Parse(s) == Some(t)
  {
    var b, c, d := ItemText(t.m, ','), ItemText(t.y, ','), ItemText(t.k, ')');
    var e1 := ItemThen(s, 5, t.c, ',', b + (c + d));
    ParseThreeAt(s, t, e1);
  }

  lemma ParseThreeAt(s: string, t: CmykText, e1: Ends)
    requires WellFormed(t) && 5 <= |s| && s[..4] == t.keyword && s[4] == '('
    requires Found(s, 5, ',', e1, t.c)
    requires var rest := ItemText(t.m, ',') + (ItemText(t.y, ',') + ItemText(t.k, ')'));
      At(s, e1.next, rest) && |s| == e1.next + |rest|
    ensures Parse(s) == Some(t)
  {
    var c, d := ItemText(t.y, ','), ItemText(t.k, ')');
    var e2 := ItemThen(s, e1.next, t.m, ',', c + d);
    ParseTwoAt(s, t, e1, e2);
  }

  lemma ParseTwoAt(s: string, t: CmykText, e1: Ends, e2: Ends)
    requires WellFormed(t) && 5 <= |s| && s[..4] == t.keyword && s[4] == '('
    requires Found(s, 5, ',', e1, t.c) && Found(s, e1.next, ',', e2, t.m)
    requires var rest := ItemText(t.y, ',') + ItemText(t.k, ')');
      At(s, e2.next, rest) && |s| == e2.next + |rest|
    ensures Parse(s) == Some(t)
  {
    var e3 := ItemThen(s, e2.next, t.y, ',', ItemText(t.k, ')'));
    ParseOneAt(s, t, e1, e2, e3);
  }

  lemma ParseOneAt(s: string, t: CmykText, e1: Ends, e2: Ends, e3: Ends)
    requires WellFormed(t) && 5 <= |s| && s[..4] == t.keyword && s[4] == '('
    requires Found(s, 5, ',', e1, t.c) && Found(s, e1.next, ',', e2, t.m)
    requires Found(s, e2.next, ',', e3, t.y)
    requires At(s, e3.next, ItemText(t.k, ')')) && |s| == e3.next + |ItemText(t.k, ')')|
    ensures Parse(s) == Some(t)
  {
    var e4 := ItemLast(s, e3.next, t.k, ')');
    ParseOf(s, t, e1, e2, e3, e4);
  }

  /** The four items found one after the other up to the end of the text. */
  lemma ParseOf(s: string, t: CmykText, e1: Ends, e2: Ends, e3: Ends, e4: Ends)
    requires 5 <= |s| && s[..4] == t.keyword && IsKeyword(t.keyword) && s[4] == '('
    requires Found(s, 5, ',', e1, t.c) && Found(s, e1.next, ',', e2, t.m)
    requires Found(s, e2.next, ',', e3, t.y) && Found(s, e3.next, ')', e4, t.k)
    requires e4.next == |s|
    ensures Parse(s) == Some(t)
  {
  }

  // What parses is a rendering.

  /** What a successful scan tells about the text, position by position. */
  lemma ScanFacts(s: string, i: nat, close: char, e: Ends)
    requires i <= |s| && ScanItem(s, i, close) == Some(e)
    ensures e.space == SpaceEnd(s, i) && e.digits == DigitEnd(s, e.space)
    ensures e.digits - e.space <= 3 && s[e.digits] == '%'
    ensures e.closing == SpaceEnd(s, e.digits + 1) && s[e.closing] == close
    ensures e.next == e.closing + 1
  {
    var j := SpaceEnd(s, i);
    var k := DigitEnd(s, j);
    ScanSteps(s, i, close, j, k);
  }

  /** A scan, with the ends of its runs of spaces and digits named. */
  lemma ScanSteps(s: string, i: nat, close: char, j: nat, k: nat)
    requires i <= j <= k <= |s| && j == SpaceEnd(s, i) && k == DigitEnd(s, j)
    ensures ScanItem(s, i, close) ==
      if 1 <= k - j <= 3 && k < |s| && s[k] == '%' then
        var g := SpaceEnd(s, k + 1);
        if g < |s| && s[g] == close then Some(Ends(j, k, g, g + 1)) else None
      else
        None
  {
  }

  /** A text cut at the ends of an item's pieces. */
  lemma SliceItem(s: string, i: nat, j: nat, k: nat, g: nat, n: nat, close: char)
    requires i <= j <= k < g < |s| && n == g + 1 && s[k] == '%' && s[g] == close
    ensures s[i..n] == s[i..j] + s[j..k] + "%" + (s[k + 1..g] + [close])
  {
    SliceSplit(s, i, j, k);
    SliceSplit(s, i, k, k + 1);
    SliceOne(s, k);
    SliceSplit(s, k + 1, g, n);
    SliceOne(s, g);
    SliceSplit(s, i, k + 1, n);
  }

  lemma ItemSound(s: string, i: nat, close: char, e: Ends)
    requires i <= |s| && ScanItem(s, i, close) == Some(e)
    ensures ItemOk(Cut(s, i, e)) && s[i..e.next] == ItemText(Cut(s, i, e), close)
  {
    ScanFacts(s, i, close, e);
    SpaceEndSpaces(s, i);
    DigitEndDigits(s, e.space);
    SpaceEndSpaces(s, e.digits + 1);
    SliceItem(s, i, e.space, e.digits, e.closing, e.next, close);
  }

  /** An item scanned in front of a known rest of the text. */
  lemma ItemSoundThen(s: string, i: nat, close: char, e: Ends, rest: string)
    requires i <= |s| && ScanItem(s, i, close) == Some(e) && s[e.next..] == rest
    ensures ItemOk(Cut(s, i, e)) && s[i..] == ItemText(Cut(s, i, e), close) + rest
  {
    ItemSound(s, i, close, e);
    SliceSplitEnd(s, i, e.next);
  }

  /** A successful parse is four scans one after the other up to the end. */
  lemma ParsedItems(s: string) returns (e1: Ends, e2: Ends, e3: Ends, e4: Ends)
    requires Parse(s).Some?
    ensures 5 <= |s| && IsKeyword(s[..4]) && s[4] == '('
    ensures ScanItem(s, 5, ',') == Some(e1) && ScanItem(s, e1.next, ',') == Some(e2)
    ensures ScanItem(s, e2.next, ',') == Some(e3) && ScanItem(s, e3.next, ')') == Some(e4)
    ensures e4.next == |s|
    ensures Parse(s).value ==
      CmykText(s[..4], Cut(s, 5, e1), Cut(s, e1.next, e2), Cut(s, e2.next, e3), Cut(s, e3.next, e4))
  {
    e1 := ScanItem(s, 5, ',').value;
    e2 := ScanItem(s, e1.next, ',').value;
    e3 := ScanItem(s, e2.next, ',').value;
    e4 := ScanItem(s, e3.next, ')').value;
  }

  /** Everything matched is a text of the pattern, cut into its pieces. */
  lemma RenderParse(s: string)
    requires Parse(s).Some?
    ensures WellFormed(Parse(s).value) && Render(Parse(s).value) == s
  {
    var e1, e2, e3, e4 := ParsedItems(s);
    var t := Parse(s).value;
    ItemSoundThen(s, e3.next, ')', e4, []);
    ItemSoundThen(s, e2.next, ',', e3, ItemText(t.k, ')'));
    ItemSoundThen(s, e1.next, ',', e2, ItemText(t.y, ',') + ItemText(t.k, ')'));
    ItemSoundThen(s, 5, ',', e1, ItemText(t.m, ',') + (ItemText(t.y, ',') + ItemText(t.k, ')')));
    CutAt(s, 4);
  }
}
