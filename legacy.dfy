/**
 * The older capture page (script.js): every hand of a frame is formatted and
 * the LAST one becomes the latest coordinates; a capture stores a row whenever
 * coordinates exist, whatever the prompt returned.
 */
module Legacy {
  import opened Common
  import opened Text
  import opened Landmarks
  import opened Samples
  import Frontend

  /** `[lm.x.toFixed(4), lm.y.toFixed(4), lm.z.toFixed(4)]` for each landmark, flattened. */
  function FormattedTriples(fmt: real -> string, h: Hand): (t: seq<string>)
    ensures |t| == 3 * |h|
  {
    if h == [] then [] else [fmt(h[0].x), fmt(h[0].y), fmt(h[0].z)] + FormattedTriples(fmt, h[1..])
  }

  /** The per-hand text: the formatted triples joined by commas, so 3 fields per landmark. */
  function HandText(fmt: real -> string, h: Hand): (t: string)
  {
    Join(FormattedTriples(fmt, h), ',')
  }

  /** A hand of n landmarks gives 3n comma-separated fields: 3n - 1 commas. */
  lemma HandTextFields(fmt: real -> string, h: Hand)
    requires FormatSafe(fmt) && |h| >= 1
    ensures Occurrences(HandText(fmt, h), ',') == 3 * |h| - 1
  {
    FormattedTriplesAgree(fmt, h);
    FormattedKeepsOut(fmt, Flatten(h), ',');
    JoinCountsSeparators(FormattedTriples(fmt, h), ',');
  }

  /** Formatting each coordinate while flattening gives the same text as flattening first, as the newer page does. */
  lemma HandTextAgrees(fmt: real -> string, h: Hand)
    ensures HandText(fmt, h) == CoordsString(fmt, Flatten(h))
  {
    FormattedTriplesAgree(fmt, h);
  }

  /** The older page's formatted triples are the newer page's formatted flat vector. */
  lemma {:induction false} FormattedTriplesAgree(fmt: real -> string, h: Hand)
    ensures FormattedTriples(fmt, h) == Formatted(fmt, Flatten(h))
  {
    if h != [] {
      FormattedTriplesAgree(fmt, h[1..]);
      var v := Flatten(h);
      assert v == [h[0].x, h[0].y, h[0].z] + Flatten(h[1..]);
      assert Formatted(fmt, v) == [fmt(h[0].x), fmt(h[0].y), fmt(h[0].z)] + Formatted(fmt, Flatten(h[1..]));
    }
  }

  /**
   * The `forEach` over the hands: each one overwrites the latest coordinates
   * in turn, so the last hand's text remains; with no hands nothing changes.
   */
  function Overwrite(latest: Option<string>, hands: seq<Hand>, fmt: real -> string): (r: Option<string>)
    ensures r == if hands == [] then latest else Some(HandText(fmt, hands[|hands| - 1]))
    decreases |hands|
  {
    if hands == [] then latest
    else
      assert |hands| > 1 ==> hands[1..][|hands| - 2] == hands[|hands| - 1];
      Overwrite(Some(HandText(fmt, hands[0])), hands[1..], fmt)
  }

  /** `onResults` on the stored coordinates: a missing or empty hand list leaves them, otherwise the last hand's text replaces them. */
  function FrameLatest(latest: Option<string>, multiHandLandmarks: Option<seq<Hand>>, fmt: real -> string): (r: Option<string>)
    ensures multiHandLandmarks.None? || multiHandLandmarks.value == [] ==> r == latest
    ensures multiHandLandmarks.Some? && multiHandLandmarks.value != [] ==>
      r == Some(HandText(fmt, multiHandLandmarks.value[|multiHandLandmarks.value| - 1]))
  {
    match multiHandLandmarks
    case None => latest
    case Some(hands) => Overwrite(latest, hands, fmt)
  }

  /**
   * The capture handler: with coordinates, exactly one row `${coords},${label}`
   * is appended, even for an empty or cancelled label, and a cancelled prompt
   * renders as "null"; without coordinates nothing changes.
   */
  function CaptureRows(data: seq<string>, latest: Option<string>, prompt: Option<string>): (r: seq<string>)
    ensures |r| == |data| + (if Truthy(latest) then 1 else 0)
    ensures r[..|data|] == data
    ensures Truthy(latest) && prompt.Some? ==> r[|data|] == latest.value + "," + prompt.value
    ensures Truthy(latest) && prompt.None? ==> r[|data|] == latest.value + ",null"
  {
    if Truthy(latest) then data + [Row(latest.value, JsText(prompt))] else data
  }

  /**
   * With two hands in a frame the newer page keeps the first hand's
   * coordinates and the older one the last hand's.
   */
  lemma PagesKeepDifferentHands(s: Frontend.Session, h1: Hand, h2: Hand, fmt: real -> string)
    ensures Frontend.FrameStep(s, Some([h1, h2]), fmt).0.latestCoords == Some(CoordsString(fmt, Flatten(h1)))
    ensures FrameLatest(s.latestCoords, Some([h1, h2]), fmt) == Some(CoordsString(fmt, Flatten(h2)))
  {
    var hands := [h1, h2];
    assert hands[0] == h1 && hands[|hands| - 1] == h2;
    HandTextAgrees(fmt, h2);
  }

  /**
   * On a cancelled prompt outside batch mode the newer page stores nothing,
   * while the older one stores a row labelled "null".
   */
  lemma PagesTreatCancelDifferently(s: Frontend.Session)
    requires !s.batchMode && Truthy(s.latestCoords)
    ensures Frontend.CaptureStep(s, None).0.capturedData == s.capturedData
    ensures CaptureRows(s.capturedData, s.latestCoords, None) == s.capturedData + [s.latestCoords.value + ",null"]
  {
    var c := s.latestCoords.value;
    assert Row(c, JsText(None)) == c + ",null";
  }

  /** The older page's state: the dataset and `window.latestCoords`. */
  class LegacyCaptureSession {
    var capturedData: seq<string>
    var latestCoords: Option<string>

    constructor ()
      ensures capturedData == [] && latestCoords == None
    {
      capturedData := [];
      latestCoords := None;
    }

    /** `onResults`; returns the per-hand lines written to the landmarks panel. */
    method OnResults(multiHandLandmarks: Option<seq<Hand>>, fmt: real -> string) returns (shown: seq<string>)
      modifies this
      ensures latestCoords == FrameLatest(old(latestCoords), multiHandLandmarks, fmt)
      ensures multiHandLandmarks.None? ==> shown == []
      ensures multiHandLandmarks.Some? ==> |shown| == |multiHandLandmarks.value|
      ensures multiHandLandmarks.Some? ==> forall i :: 0 <= i < |shown| ==> shown[i] == HandText(fmt, multiHandLandmarks.value[i])
      ensures capturedData == old(capturedData)
    {
      shown := [];
      if multiHandLandmarks.None? {
        return;
      }
      var hands := multiHandLandmarks.value;
      ghost var before := latestCoords;
      var i := 0;
      while i < |hands|
        invariant 0 <= i <= |hands|
        invariant latestCoords == if i == 0 then before else Some(HandText(fmt, hands[i - 1]))
        invariant |shown| == i && forall k :: 0 <= k < i ==> shown[k] == HandText(fmt, hands[k])
        invariant capturedData == old(capturedData)
      {
        var flatCoords := HandText(fmt, hands[i]);
        ghost var prev := shown;
        shown := shown + [flatCoords];
        assert forall k :: 0 <= k < i ==> shown[k] == prev[k];
        latestCoords := Some(flatCoords);
        i := i + 1;
      }
    }

    /** The capture button; `prompt` is the answer to the label prompt (`None` for cancel). */
    method Capture(prompt: Option<string>)
      modifies this
      ensures capturedData == CaptureRows(old(capturedData), latestCoords, prompt)
      ensures latestCoords == old(latestCoords)
    {
      if Truthy(latestCoords) {
        var labelText := JsText(prompt);
        capturedData := capturedData + [Row(latestCoords.value, labelText)];
      }
    }

    /** The download button; reads the dataset only. */
    method Download() returns (csv: Option<string>)
      ensures csv == Samples.Download(capturedData)
      ensures csv.None? <==> capturedData == []
    {
      if |capturedData| == 0 {
        return None;
      }
      csv := Some(BeforeFragment(Join(capturedData, '\n')));
    }
  }
}
