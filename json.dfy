/** `JSON.stringify(colors, null, 2)` for a list of strings, as section
    25.5.2 of ECMA-262 lays it out: `[]` for the empty list, otherwise one
    element per line indented by two spaces, and each string quoted with
    the escapes of QuoteJSONString. A reader for that layout, following
    the string grammar of section 7 of RFC 8259, recovers the list. */
module Json {
  import opened Wrappers
  import opened Text

  /** A hexadecimal digit in lower case, as UnicodeEscape writes it. */
  function HexDigit(d: nat): char
    requires d < 16
  {
    if d < 10 then ('0' as int + d) as char else ('a' as int + d - 10) as char
  }

  /** The escape of one character: the two-character escapes of
      QuoteJSONString, `\u00xx` for the other control characters, and the
      character itself otherwise. (Dafny characters are scalar values, so
      the escape of lone surrogates cannot arise.) */
  function EscapeChar(c: char): string {
    if c == '\U{8}' then "\\b"
    else if c == '\t' then "\\t"
    else if c == '\n' then "\\n"
    else if c == '\U{C}' then "\\f"
    else if c == '\r' then "\\r"
    else if c == '"' then "\\\""
    else if c == '\\' then "\\\\"
    else if c < ' ' then "\\u00" + [HexDigit(c as int / 16), HexDigit(c as int % 16)]
    else [c]
  }

  function Escape(s: string): string {
    if s == [] then [] else EscapeChar(s[0]) + Escape(s[1..])
  }

  function Quote(s: string): string {
    "\"" + Escape(s) + "\""
  }

  /** The indented element lines, separated by `,` and a line feed. */
  function Elements(xs: seq<string>): string
    requires xs != []
  {
    "  " + Quote(xs[0]) + (if |xs| == 1 then "" else ",\n" + Elements(xs[1..]))
  }

  function Stringify(xs: seq<string>): string {
    if xs == [] then "[]" else "[\n" + Elements(xs) + "\n]"
  }

  // The reader

  function HexValue(c: char): nat {
    if '0' <= c <= '9' then c as int - '0' as int
    else if 'a' <= c <= 'f' then c as int - 'a' as int + 10
    else if 'A' <= c <= 'F' then c as int - 'A' as int + 10
    else 0
  }

  predicate IsSurrogate(n: nat) {
    0xD800 <= n <= 0xDFFF
  }

  /** The character of an escape, read after its backslash, and how many
      characters the escape takes there. A `\u` escape that names half of a
      surrogate pair is not read (the writer never produces one). */
  function Unescape(t: string): (r: Option<(char, nat)>)
    ensures r.Some? ==> 1 <= r.value.1 <= |t|
  {
    if t == [] then None
    else if t[0] == '"' then Some(('"', 1))
    else if t[0] == '\\' then Some(('\\', 1))
    else if t[0] == '/' then Some(('/', 1))
    else if t[0] == 'b' then Some(('\U{8}', 1))
    else if t[0] == 'f' then Some(('\U{C}', 1))
    else if t[0] == 'n' then Some(('\n', 1))
    else if t[0] == 'r' then Some(('\r', 1))
    else if t[0] == 't' then Some(('\t', 1))
    else if t[0] == 'u' && |t| >= 5 && IsHexDigit(t[1]) && IsHexDigit(t[2]) && IsHexDigit(t[3]) && IsHexDigit(t[4]) then
      var n := ((HexValue(t[1]) * 16 + HexValue(t[2])) * 16 + HexValue(t[3])) * 16 + HexValue(t[4]);
      if IsSurrogate(n) then None else Some((n as char, 5))
    else None
  }

  /** The content of a string whose opening quote has been read, and the
      text after its closing quote. Unescaped control characters are not
      allowed inside a string. */
  function ReadString(t: string): (r: Option<(string, string)>)
    ensures r.Some? ==> |r.value.1| < |t|
    decreases |t|
  {
    if t == [] || t[0] < ' ' then None
    else if t[0] == '"' then Some(([], t[1..]))
    else if t[0] == '\\' then
      match Unescape(t[1..])
      case None => None
      case Some((c, n)) =>
        match ReadString(t[1 + n..])
        case None => None
        case Some((s, rest)) => Some(([c] + s, rest))
    else
      match ReadString(t[1..])
      case None => None
      case Some((s, rest)) => Some(([t[0]] + s, rest))
  }

  /** Elements in the layout above, up to the closing bracket. */
  function ReadElements(t: string): Option<seq<string>>
    decreases |t|
  {
    if !StartsWith(t, "  \"") then None
    else
      match ReadString(t[3..])
      case None => None
      case Some((s, rest)) =>
        if rest == "\n]" then Some([s])
        else if StartsWith(rest, ",\n") then
          match ReadElements(rest[2..])
          case None => None
          case Some(more) => Some([s] + more)
        else None
  }

  function ReadList(t: string): Option<seq<string>> {
    if t == "[]" then Some([])
    else if StartsWith(t, "[\n") then ReadElements(t[2..])
    else None
  }

  // Reading back what was written

  lemma HexDigitValue(d: nat)
    requires d < 16
    ensures IsHexDigit(HexDigit(d)) && HexValue(HexDigit(d)) == d
  {
  }

  /** The escape of a character reads back as that character. */
  lemma UnescapeEscape(c: char, u: string)
    requires EscapeChar(c) != [c]
    ensures EscapeChar(c)[0] == '\\'
    ensures Unescape(EscapeChar(c)[1..] + u) == Some((c, |EscapeChar(c)| - 1))
  {
    if c < ' ' && c != '\U{8}' && c != '\t' && c != '\n' && c != '\U{C}' && c != '\r' {
      var hi, lo := c as int / 16, c as int % 16;
      HexDigitValue(hi);
      HexDigitValue(lo);
      var t := EscapeChar(c)[1..] + u;
      assert t[..5] == ['u', '0', '0', HexDigit(hi), HexDigit(lo)];
      assert (c as int) as char == c;
    }
  }

  /** A character written as itself is plain: it needs no escape. */
  lemma PlainWhenUnescaped(c: char)
    requires EscapeChar(c) == [c]
    ensures c >= ' ' && c != '"' && c != '\\'
  {
  }

  lemma ReadPlainChar(c: char, u: string)
    requires c >= ' ' && c != '"' && c != '\\'
    ensures ReadString([c] + u) ==
      match ReadString(u)
      case None => None
      case Some((s, rest)) => Some(([c] + s, rest))
  {
    assert ([c] + u)[1..] == u;
  }

  lemma ReadEscapeSequence(e: string, c: char, u: string)
    requires |e| >= 2 && e[0] == '\\' && Unescape(e[1..] + u) == Some((c, |e| - 1))
    ensures ReadString(e + u) ==
      match ReadString(u)
      case None => None
      case Some((s, rest)) => Some(([c] + s, rest))
  {
    var t := e + u;
    assert t[0] == '\\';
    assert t[1..] == e[1..] + u;
    assert t[1 + (|e| - 1)..] == u;
  }

  /** Reading one escaped character, then the rest. */
  lemma ReadEscapedChar(c: char, u: string)
    ensures ReadString(EscapeChar(c) + u) ==
      match ReadString(u)
      case None => None
      case Some((s, rest)) => Some(([c] + s, rest))
  {
    var e := EscapeChar(c);
    if e == [c] {
      PlainWhenUnescaped(c);
      ReadPlainChar(c, u);
    } else {
      UnescapeEscape(c, u);
      ReadEscapeSequence(e, c, u);
    }
  }

  /** An escaped string followed by its closing quote reads back as the
      string, and reading stops right after the quote. */
  lemma {:induction false} ReadEscaped(s: string, rest: string)
    ensures ReadString(Escape(s) + "\"" + rest) == Some((s, rest))
  {
    if s == [] {
      assert Escape(s) + "\"" + rest == "\"" + rest;
    } else {
      var tail := Escape(s[1..]) + "\"" + rest;
      assert Escape(s) + "\"" + rest == EscapeChar(s[0]) + tail;
      ReadEscaped(s[1..], rest);
      ReadEscapedChar(s[0], tail);
      assert [s[0]] + s[1..] == s;
    }
  }

  /** What follows the first element: nothing for one element,
      otherwise a comma, a line feed and the others. */
  function Rest(xs: seq<string>): string
    requires xs != []
  {
    if |xs| == 1 then "" else ",\n" + Elements(xs[1..])
  }

  lemma ShapeGlue(e: string, r: string, f: string)
    ensures "  " + ("\"" + e + "\"") + r + f == "  \"" + (e + "\"" + (r + f))
  {
  }

  lemma ElementsShape(xs: seq<string>)
    requires xs != []
    ensures Elements(xs) + "\n]" == "  \"" + (Escape(xs[0]) + "\"" + (Rest(xs) + "\n]"))
  {
    assert Elements(xs) == "  " + Quote(xs[0]) + Rest(xs);
    ShapeGlue(Escape(xs[0]), Rest(xs), "\n]");
  }

  /** One element line read, with what comes after it left abstract. */
  lemma ReadElementStep(t: string, x: string, after: string)
    requires t == "  \"" + (Escape(x) + "\"" + after)
    ensures after == "\n]" ==> ReadElements(t) == Some([x])
    ensures after != "\n]" && StartsWith(after, ",\n") && ReadElements(after[2..]).Some? ==>
      ReadElements(t) == Some([x] + ReadElements(after[2..]).value)
  {
    assert t[..3] == "  \"";
    assert t[3..] == Escape(x) + "\"" + after;
    ReadEscaped(x, after);
  }

  /** An element line followed by further elements. */
  lemma ReadElementCons(t: string, x: string, tail: string)
    requires t == "  \"" + (Escape(x) + "\"" + (",\n" + tail))
    requires ReadElements(tail).Some?
    ensures ReadElements(t) == Some([x] + ReadElements(tail).value)
  {
    var after := ",\n" + tail;
    HeadSplit(",\n", tail);
    assert after != "\n]" by {
      assert after[0] == ',';
    }
    ReadElementStep(t, x, after);
  }

  /** The element lines read back as the elements. */
  lemma {:induction false} ReadElementsOf(xs: seq<string>)
    requires xs != []
    ensures ReadElements(Elements(xs) + "\n]") == Some(xs)
  {
    if |xs| > 1 {
      ReadElementsOf(xs[1..]);
      ReadElementsTail(xs);
    } else {
      ReadElementsSingle(xs);
    }
  }

  lemma ReadElementsSingle(xs: seq<string>)
    requires |xs| == 1
    ensures ReadElements(Elements(xs) + "\n]") == Some(xs)
  {
    ElementsShape(xs);
    assert Rest(xs) + "\n]" == "\n]";
    ReadElementStep(Elements(xs) + "\n]", xs[0], "\n]");
    assert [xs[0]] == xs;
  }

  lemma ReadElementsTail(xs: seq<string>)
    requires |xs| > 1
    requires ReadElements(Elements(xs[1..]) + "\n]") == Some(xs[1..])
    ensures ReadElements(Elements(xs) + "\n]") == Some(xs)
  {
    ElementsShape(xs);
    var tail := Elements(xs[1..]) + "\n]";
    Regroup3(",\n", Elements(xs[1..]), "\n]");
    assert Rest(xs) + "\n]" == ",\n" + tail;
    ReadElementCons(Elements(xs) + "\n]", xs[0], tail);
    HeadTail(xs);
  }

  /** What `JSON.stringify` writes reads back as the list it was given; in
      particular distinct lists are written differently. */
  lemma ReadStringify(xs: seq<string>)
    ensures ReadList(Stringify(xs)) == Some(xs)
  {
    if xs != [] {
      Regroup3("[\n", Elements(xs), "\n]");
      HeadSplit("[\n", Elements(xs) + "\n]");
      ReadElementsOf(xs);
    }
  }

  lemma StringifyInjective(xs: seq<string>, ys: seq<string>)
    requires Stringify(xs) == Stringify(ys)
    ensures xs == ys
  {
    ReadStringify(xs);
    ReadStringify(ys);
  }

  /** Plain text (no quote, backslash or control character) is copied
      between the quotes unchanged. */
  lemma {:induction false} EscapePlain(s: string)
    requires forall i :: 0 <= i < |s| ==> s[i] >= ' ' && s[i] != '"' && s[i] != '\\'
    ensures Escape(s) == s
  {
    if s != [] {
      EscapePlain(s[1..]);
      assert [s[0]] + s[1..] == s;
    }
  }
}
