/** The export panel (`ExportColors`): the scale it hands to the exporters
    and the extension of the downloaded file. */
module ExportPanel {
  import opened Wrappers
  import opened Text
  import Exporters

  /** How many colours the panel exports. */
  const ScaleLength: nat := 11

  /** The scale as the panel maps it: eleven copies of the primary colour
      when there is no scale (`None`: missing or not an array) or it has
      fewer than two entries; otherwise the scale padded with its last
      entry up to eleven. */
  function TailwindScale(primary: string, scale: Option<seq<string>>): seq<string> {
    if scale.None? || |scale.value| < 2 then seq(ScaleLength, _ => primary)
    else
      var sc := scale.value;
      sc + seq(if |sc| < ScaleLength then ScaleLength - |sc| else 0, _ => sc[|sc| - 1])
  }

  /** `mapColorsToTailwindScale`: copy the scale, then push its last entry
      until there are eleven. */
  method MapColorsToTailwindScale(primary: string, scale: Option<seq<string>>) returns (filled: seq<string>)
    ensures filled == TailwindScale(primary, scale)
  {
    if scale.None? || |scale.value| < 2 {
      return seq(ScaleLength, _ => primary);
    }
    var sc := scale.value;
    filled := sc;
    while |filled| < ScaleLength
      invariant |filled| >= |sc| && filled[..|sc|] == sc
      invariant forall i :: |sc| <= i < |filled| ==> filled[i] == sc[|sc| - 1]
      invariant |sc| < ScaleLength ==> |filled| <= ScaleLength
      invariant |sc| >= ScaleLength ==> filled == sc
      decreases ScaleLength - |filled|
    {
      filled := filled + [sc[|sc| - 1]];
    }
  }

  /** Without a usable scale every step gets the primary colour; this
      includes the one-colour scale the colour library's fallback gives. */
  lemma FallbackScale(primary: string, scale: Option<seq<string>>)
    requires scale.None? || |scale.value| < 2
    ensures |TailwindScale(primary, scale)| == ScaleLength
    ensures forall i :: 0 <= i < ScaleLength ==> TailwindScale(primary, scale)[i] == primary
    ensures TailwindScale(primary, Some([primary])) == TailwindScale(primary, None)
  {
  }

  /** A scale of two or more entries is kept in front, the rest repeats its
      last entry, and a scale of eleven or more is kept whole. */
  lemma PaddedScale(primary: string, sc: seq<string>)
    requires |sc| >= 2
    ensures var r := TailwindScale(primary, Some(sc));
      |r| == (if |sc| < ScaleLength then ScaleLength else |sc|) && r[..|sc|] == sc &&
      forall i :: |sc| <= i < |r| ==> r[i] == sc[|sc| - 1]
    ensures |sc| >= ScaleLength ==> TailwindScale(primary, Some(sc)) == sc
  {
    var r := TailwindScale(primary, Some(sc));
    assert r[..|sc|] == sc;
  }

  /** The mapped scale has eleven or more entries, so the exporters'
      own padding leaves it as it is. */
  lemma ExportersKeepScale(primary: string, scale: Option<seq<string>>)
    ensures |TailwindScale(primary, scale)| >= |Exporters.Steps|
    ensures Exporters.Padded(Some(TailwindScale(primary, scale))) == TailwindScale(primary, scale)
  {
    Exporters.PaddedShape(Some(TailwindScale(primary, scale)));
  }

  /** The code the panel shows: the export of the mapped scale. */
  method ExportedCode(primary: string, scale: Option<seq<string>>, exportFormat: string) returns (code: string)
    ensures code == Exporters.ExportText(TailwindScale(primary, scale), exportFormat)
  {
    var colors := MapColorsToTailwindScale(primary, scale);
    code := Exporters.ExportColors(colors, exportFormat);
  }

  /** The Tailwind export of the panel declares the eleven steps with the
      mapped scale's first eleven colours, when these have no quote,
      semicolon or comma. */
  lemma PanelTailwindReadsBack(primary: string, scale: Option<seq<string>>)
    requires var r := TailwindScale(primary, scale);
      forall i :: 0 <= i < |r| ==> '\'' !in r[i] && ';' !in r[i] && ',' !in r[i]
    ensures var r := TailwindScale(primary, scale);
      Exporters.ReadTailwind(Exporters.ExportText(r, "tailwind")) == Some(Exporters.EntriesFrom(Exporters.Steps, r, 0))
  {
    var r := TailwindScale(primary, scale);
    Exporters.ExportStylesheetsReadBack(r);
    ExportersKeepScale(primary, scale);
  }

  /** `getFileExtension`: an exact-case table, `txt` for any other name. */
  function FileExtension(format: string): (ext: string)
    ensures ext in {"js", "css", "scss", "json", "txt"}
    ensures ext == "js" <==> format == "tailwind"
    ensures ext == "css" <==> format == "css"
    ensures ext == "scss" <==> format == "scss"
    ensures ext == "json" <==> format == "json"
  {
    match format
    case "tailwind" => "js"
    case "css" => "css"
    case "scss" => "scss"
    case "json" => "json"
    case _ => "txt"
  }

  /** For the names the panel offers the extension matches the exported
      format, but the table ignores the case folding of the export: a name
      in capitals exports a stylesheet saved as `txt`. */
  lemma ExtensionMatchesExport(format: string)
    requires format in {"tailwind", "css", "scss", "json"}
    ensures var f := Exporters.ExportFormatOf(format);
      FileExtension(format) == (if f == Exporters.Tailwind then "js" else if f == Exporters.Css then "css" else if f == Exporters.Scss then "scss" else "json")
    ensures Exporters.ExportFormatOf("CSS") == Exporters.Css && FileExtension("CSS") == "txt"
  {
    assert ToLower(format) == format;
    assert ToLower("CSS") == "css";
  }
}
