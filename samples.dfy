/**
 * What both capture pages store: one text row per sample, the coordinate text
 * followed by a comma and the label, and the download that joins the rows with
 * newlines.
 */
module Samples {
  import opened Common
  import opened Text
  import opened Landmarks

  /** JavaScript truthiness of a value that is a string, `undefined` or `null`. */
  predicate Truthy(v: Option<string>)
  {
    v.Some? && v.value != ""
  }

  /** How a template literal renders a string or `null` (`${label}`). */
  function JsText(v: Option<string>): (t: string)
    ensures v.None? ==> t == "null"
    ensures v.Some? ==> t == v.value
  {
    match v
    case Some(s) => s
    case None => "null"
  }

  /** The row `${coords},${label}` pushed by a capture. */
  function Row(coords: string, labelText: string): (r: string)
    ensures |r| == |coords| + 1 + |labelText|
    ensures r[..|coords|] == coords && r[|coords|] == ',' && r[|coords| + 1..] == labelText
  {
    coords + [','] + labelText
  }

  /**
   * The text the download handler builds: nothing when no sample was
   * captured, otherwise the rows joined by newlines.
   */
  function Export(rows: seq<string>): (r: Option<string>)
    ensures r.None? <==> |rows| == 0
  {
    if |rows| == 0 then None else Some(Join(rows, '\n'))
  }

  /**
   * The body of a `data:` URI whose text went through `encodeURI`: that
   * escapes neither '#' nor anything the browser does not decode again, and
   * the URI's body ends where its fragment starts, at the first '#'.
   */
  function BeforeFragment(s: string): (r: string)
    ensures |r| <= |s| && r == s[..|r|]
    ensures '#' !in r
    ensures |r| < |s| ==> s[|r|] == '#'
  {
    if s == [] || s[0] == '#' then []
    else
      var rest := BeforeFragment(s[1..]);
      assert s == [s[0]] + s[1..];
      [s[0]] + rest
  }

  /** A text without '#' passes through the URI whole. */
  lemma WholeWithoutFragment(s: string)
    requires '#' !in s
    ensures BeforeFragment(s) == s
  {
  }

  /** Rows without '#' give an export without '#'. */
  lemma ExportKeepsOutHash(rows: seq<string>)
    ensures (forall i :: 0 <= i < |rows| ==> '#' !in rows[i]) && |rows| > 0 ==> '#' !in Export(rows).value
  {
    if forall i :: 0 <= i < |rows| ==> '#' !in rows[i] {
      JoinKeepsOut(rows, '\n', '#');
    }
  }

  /** The file the download button saves: the export, cut at the first '#'. */
  function Download(rows: seq<string>): (f: Option<string>)
    ensures f.None? <==> |rows| == 0
    ensures (forall i :: 0 <= i < |rows| ==> '#' !in rows[i]) ==> f == Export(rows)
  {
    ExportKeepsOutHash(rows);
    match Export(rows)
    case None => None
    case Some(text) =>
      assert '#' !in text ==> BeforeFragment(text) == text by {
        if '#' !in text {
          WholeWithoutFragment(text);
        }
      }
      Some(BeforeFragment(text))
  }

  /** The URI body of the two-sample text below ends just before the '#'. */
  lemma CutAtHash()
    ensures BeforeFragment("0.1,C#\n0.2,D") == "0.1,C"
  {
    var text := "0.1,C#\n0.2,D";
    var r := BeforeFragment(text);
    assert text[5] == '#';
    assert forall k :: 0 <= k < 5 ==> text[k] != '#';
    assert |r| == 5;
    assert r == text[..5];
  }

  /**
   * A '#' in a label loses the rest of the file: of the samples labelled
   * "C#" and "D", the saved file holds the first row up to "C" only.
   */
  lemma HashCutsDownload()
    ensures Export(["0.1,C#", "0.2,D"]) == Some("0.1,C#\n0.2,D")
    ensures Download(["0.1,C#", "0.2,D"]) == Some("0.1,C")
  {
    var rows := ["0.1,C#", "0.2,D"];
    assert rows[1..] == ["0.2,D"];
    assert Join(rows, '\n') == rows[0] + ['\n'] + rows[1];
    assert rows[0] + ['\n'] + rows[1] == "0.1,C#\n0.2,D";
    CutAtHash();
  }

  /** A non-empty export has exactly one line per captured row, in capture order. */
  lemma ExportLines(rows: seq<string>)
    requires |rows| >= 1
    requires forall i :: 0 <= i < |rows| ==> '\n' !in rows[i]
    ensures Export(rows).Some?
    ensures Split(Export(rows).value, '\n') == rows
    ensures |Split(Export(rows).value, '\n')| == |rows|
  {
    SplitJoin(rows, '\n');
  }

  /** The fields of a stored row are the formatted coordinates followed by the pieces of the label. */
  lemma RowFields(fmt: real -> string, v: seq<real>, labelText: string)
    requires FormatSafe(fmt)
    requires |v| >= 1
    ensures Split(Row(CoordsString(fmt, v), labelText), ',') == Formatted(fmt, v) + Split(labelText, ',')
    ensures |Split(Row(CoordsString(fmt, v), labelText), ',')| == |v| + 1 + Occurrences(labelText, ',')
  {
    FormattedKeepsOut(fmt, v, ',');
    SplitJoinThen(Formatted(fmt, v), labelText, ',');
  }

  /** A row of a complete hand has 64 fields (63 coordinates and the label) exactly when the label has no comma. */
  lemma RowHas64Fields(fmt: real -> string, v: seq<real>, labelText: string)
    requires FormatSafe(fmt)
    requires |v| == 63
    ensures |Split(Row(CoordsString(fmt, v), labelText), ',')| == 64 <==> ',' !in labelText
  {
    RowFields(fmt, v, labelText);
  }

  /** A row stays on one line, and free of '#', when its label does. */
  lemma RowKeepsOut(fmt: real -> string, v: seq<real>, labelText: string, c: char)
    requires FormatSafe(fmt)
    requires c == '\n' || c == '#'
    requires c !in labelText
    ensures c !in Row(CoordsString(fmt, v), labelText)
  {
    CoordsStringKeepsOut(fmt, v, c);
  }
}
