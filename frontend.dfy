/**
 * The capture page (frontend/script.js): how a prediction is displayed, and
 * the capture session that the frame callback and the button handlers drive.
 */
module Frontend {
  import opened Common
  import opened Text
  import opened Landmarks
  import opened Samples
  import opened Wire

  // ---------------------------------------------------------------------------
  // displayPrediction
  // ---------------------------------------------------------------------------

  /** Below this confidence the page shows "Unclear Gesture" and only a best guess. */
  const ConfidenceThreshold: real := 0.6

  /** The colour band of the confidence bar. */
  datatype Color = Green | Amber | Red

  /** What the prediction panel shows. */
  datatype Display = Display(unclear: bool, gesture: string, confidence: real, color: Color, others: seq<Entry>)

  /** Colour band: green above 0.7, amber above 0.5, red otherwise. */
  function BandColor(c: real): (r: Color)
    ensures r == Green <==> c > 0.7
    ensures r == Red <==> c <= 0.5
  {
    if c > 0.7 then Green else if c > 0.5 then Amber else Red
  }

  /** Probabilities do not increase along `s`. */
  predicate SortedDesc(s: seq<Entry>)
  {
    forall i, j :: 0 <= i < j < |s| ==> s[i].1 >= s[j].1
  }

  /** Places `e` into a descending list, before the entries of equal probability. */
  function Insert(e: Entry, t: seq<Entry>): (r: seq<Entry>)
    requires SortedDesc(t)
    ensures SortedDesc(r)
    ensures multiset(r) == multiset(t) + multiset{e}
  {
    if t == [] || e.1 >= t[0].1 then
      PrependSorted(e, t);
      [e] + t
    else
      var rest := Insert(e, t[1..]);
      InsertBehindHead(e, t, rest);
      [t[0]] + rest
  }

  /** When `e` goes behind the head, the head followed by the insertion into the tail is the insertion. */
  lemma InsertBehindHead(e: Entry, t: seq<Entry>, rest: seq<Entry>)
    requires SortedDesc(t) && t != [] && e.1 < t[0].1
    requires SortedDesc(rest) && multiset(rest) == multiset(t[1..]) + multiset{e}
    ensures SortedDesc([t[0]] + rest)
    ensures multiset([t[0]] + rest) == multiset(t) + multiset{e}
  {
    assert t == [t[0]] + t[1..];
    forall y | y in multiset(rest) ensures y.1 <= t[0].1 {
      if y != e {
        assert y in t[1..];
      }
    }
    PrependSorted(t[0], rest);
  }

  /** An entry at least as likely as every entry of a descending list can go in front. */
  lemma PrependSorted(x: Entry, r: seq<Entry>)
    requires SortedDesc(r)
    requires forall y :: y in multiset(r) ==> y.1 <= x.1
    ensures SortedDesc([x] + r)
  {
    forall i, j | 0 <= i < j < |[x] + r| ensures ([x] + r)[i].1 >= ([x] + r)[j].1 {
      if i == 0 {
        assert r[j - 1] in multiset(r);
      }
    }
  }

  /** `.sort((a, b) => b[1] - a[1])`: a stable descending ordering of the entries. */
  function SortByProbability(s: seq<Entry>): (r: seq<Entry>)
    ensures SortedDesc(r)
    ensures multiset(r) == multiset(s)
  {
    if s == [] then []
    else
      assert s == [s[0]] + s[1..];
      Insert(s[0], SortByProbability(s[1..]))
  }

  /**
   * `.slice(0, 3)` of the sorted entries: at most three entries of the
   * distribution, in descending order, none of them less likely than any entry
   * left out.
   */
  function TopThree(s: seq<Entry>): (r: seq<Entry>)
    ensures |r| == if |s| < 3 then |s| else 3
    ensures SortedDesc(r)
    ensures multiset(r) <= multiset(s)
    ensures forall e, f :: e in r && f in multiset(s) - multiset(r) ==> f.1 <= e.1
  {
    var sorted := SortByProbability(s);
    assert |sorted| == |multiset(sorted)| == |s|;
    var n := if |sorted| < 3 then |sorted| else 3;
    HeadDominatesTail(sorted, n);
    sorted[..n]
  }

  /** Cutting a descending list leaves a head none of whose entries is below an entry of the tail. */
  lemma HeadDominatesTail(sorted: seq<Entry>, n: nat)
    requires SortedDesc(sorted) && n <= |sorted|
    ensures multiset(sorted) - multiset(sorted[..n]) == multiset(sorted[n..])
    ensures multiset(sorted[..n]) <= multiset(sorted)
    ensures forall e, f :: e in sorted[..n] && f in multiset(sorted[n..]) ==> f.1 <= e.1
  {
    assert sorted == sorted[..n] + sorted[n..];
    forall e, f | e in sorted[..n] && f in multiset(sorted[n..]) ensures f.1 <= e.1 {
      HeadEntryDominates(sorted, n, e, f);
    }
  }

  /** One entry of the head of a descending list against one entry of its tail. */
  lemma HeadEntryDominates(sorted: seq<Entry>, n: nat, e: Entry, f: Entry)
    requires SortedDesc(sorted) && n <= |sorted|
    requires e in sorted[..n] && f in sorted[n..]
    ensures f.1 <= e.1
  {
    var head, tail := sorted[..n], sorted[n..];
    var i :| 0 <= i < |head| && head[i] == e;
    var j :| 0 <= j < |tail| && tail[j] == f;
    assert head[i] == sorted[i] && tail[j] == sorted[n + j];
  }

  /** How many entries of `s` carry the label `g`. */
  function LabelCount(s: seq<Entry>, g: string): (n: nat)
    ensures n <= |s|
    ensures n == 0 <==> forall e :: e in s ==> e.0 != g
  {
    if s == [] then 0
    else
      assert forall e :: e in s <==> e == s[0] || e in s[1..];
      (if s[0].0 == g then 1 else 0) + LabelCount(s[1..], g)
  }

  /** The entries of `s` whose label is not `g`, in their order. */
  function WithoutLabel(s: seq<Entry>, g: string): (r: seq<Entry>)
    ensures |r| == |s| - LabelCount(s, g)
    ensures IsSubsequence(r, s)
    ensures forall e :: e in r <==> e in s && e.0 != g
    ensures SortedDesc(s) ==> SortedDesc(r)
  {
    if s == [] then []
    else
      var rest := WithoutLabel(s[1..], g);
      assert forall e :: e in s <==> e == s[0] || e in s[1..];
      if s[0].0 != g then
        assert ([s[0]] + rest)[1..] == rest;
        [s[0]] + rest
      else rest
  }

  /**
   * `displayPrediction(data)`: the threshold only decides the presentation;
   * gesture and confidence are shown as received, and "Other possibilities"
   * lists the top three entries except the predicted gesture.
   */
  function DisplayPrediction(data: PredictionResponse): (d: Display)
    ensures d.unclear <==> data.confidence < ConfidenceThreshold
    ensures d.gesture == data.gesture && d.confidence == data.confidence
    ensures !d.unclear ==> d.color == BandColor(data.confidence) && d.color != Red
    ensures |d.others| <= 3
    ensures SortedDesc(d.others)
    ensures IsSubsequence(d.others, TopThree(data.allProbabilities))
    ensures forall e :: e in d.others <==> e in TopThree(data.allProbabilities) && e.0 != data.gesture
    ensures forall e :: e in d.others ==> e in data.allProbabilities
    ensures forall e :: e in d.others ==> forall f :: f in multiset(data.allProbabilities) - multiset(TopThree(data.allProbabilities)) ==> f.1 <= e.1
  {
    var top := TopThree(data.allProbabilities);
    var others := WithoutLabel(top, data.gesture);
    assert forall e :: e in top ==> e in multiset(data.allProbabilities);
    Display(data.confidence < ConfidenceThreshold, data.gesture, data.confidence, BandColor(data.confidence), others)
  }

  /** The panel lists the top entries less those that carry the predicted label. */
  lemma OthersCount(data: PredictionResponse)
    ensures |DisplayPrediction(data).others| ==
      (if |data.allProbabilities| < 3 then |data.allProbabilities| else 3) - LabelCount(TopThree(data.allProbabilities), data.gesture)
  {
  }

  /**
   * For a response whose labels are distinct (the keys of a JSON object), the
   * panel lists min(3, n) alternatives, one fewer when the predicted gesture
   * is among the top three.
   */
  lemma OthersCountWithDistinctLabels(data: PredictionResponse)
    requires DistinctLabels(data.allProbabilities)
    ensures |DisplayPrediction(data).others| ==
      (if |data.allProbabilities| < 3 then |data.allProbabilities| else 3)
      - (if exists e :: e in TopThree(data.allProbabilities) && e.0 == data.gesture then 1 else 0)
  {
    var top := TopThree(data.allProbabilities);
    DistinctLabelsKept(data.allProbabilities, top);
    LabelCountAtMostOne(top, data.gesture);
  }

  /** With distinct labels, a label occurs at most once. */
  lemma {:induction false} LabelCountAtMostOne(s: seq<Entry>, g: string)
    requires DistinctLabels(s)
    ensures LabelCount(s, g) <= 1
  {
    if s != [] {
      assert DistinctLabels(s[1..]) by {
        forall i, j | 0 <= i < j < |s[1..]| ensures s[1..][i].0 != s[1..][j].0 {
          assert s[1..][i] == s[i + 1] && s[1..][j] == s[j + 1];
        }
      }
      LabelCountAtMostOne(s[1..], g);
      if s[0].0 == g {
        forall e | e in s[1..] ensures e.0 != g {
          var k :| 0 <= k < |s[1..]| && s[1..][k] == e;
          assert s[k + 1] == e;
        }
      }
    }
  }

  /** An entry of a list with distinct labels occurs exactly once. */
  lemma OccursOnce(s: seq<Entry>, a: nat)
    requires DistinctLabels(s) && a < |s|
    ensures multiset(s)[s[a]] == 1
  {
    assert s == s[..a] + [s[a]] + s[a + 1..];
    assert s[a] !in s[..a] by {
      forall k | 0 <= k < a ensures s[..a][k] != s[a] {
        assert s[..a][k] == s[k];
      }
    }
    var tail := s[a + 1..];
    assert s[a] !in tail by {
      forall k | 0 <= k < |tail| ensures tail[k] != s[a] {
        assert tail[k] == s[a + 1 + k];
      }
    }
  }

  /** An entry at two positions occurs at least twice. */
  lemma OccursTwice(s: seq<Entry>, i: nat, j: nat)
    requires i < j < |s|
    ensures s[i] == s[j] ==> multiset(s)[s[j]] >= 2
  {
    assert s == s[..j] + [s[j]] + s[j + 1..];
    assert s[i] == s[..j][i];
  }

  /** Part of a list with distinct labels has distinct labels. */
  lemma DistinctLabelsKept(s: seq<Entry>, t: seq<Entry>)
    requires DistinctLabels(s) && multiset(t) <= multiset(s)
    ensures DistinctLabels(t)
  {
    forall i, j | 0 <= i < j < |t| ensures t[i].0 != t[j].0 {
      assert t[i] in multiset(t) && t[j] in multiset(t);
      var a :| 0 <= a < |s| && s[a] == t[i];
      var b :| 0 <= b < |s| && s[b] == t[j];
      OccursOnce(s, a);
      OccursTwice(t, i, j);
    }
  }

  // ---------------------------------------------------------------------------
  // The capture session
  // ---------------------------------------------------------------------------

  /** The page's module-level state and `window.latestCoords`/`window.latestCoordsArray`. */
  datatype Session = Session(
    capturedData: seq<string>,
    isPredicting: bool,
    batchMode: bool,
    batchLabel: string,
    batchCount: nat,
    latestCoords: Option<string>,
    latestCoordsArray: Option<seq<real>>)

  /** The state when the page loads. */
  const Initial: Session := Session([], false, false, "", 0, None, None)

  /** What a click on the capture button led to. */
  datatype CaptureOutcome =
    | Captured(labelText: string)  // a row was appended under this label
    | NoHand                       // "No hand detected!"
    | MissingLabel                 // batch mode without a label: "Please enter a label first!"
    | Cancelled                    // the label prompt returned nothing

  /**
   * `onResults`: with at least one hand, the FIRST hand's flattened vector and
   * its formatted text become the latest coordinates, and the vector is handed
   * to `predictGesture` when prediction mode is on. Without hands nothing changes.
   */
  function FrameStep(s: Session, multiHandLandmarks: Option<seq<Hand>>, fmt: real -> string): (r: (Session, Option<seq<real>>))
    ensures r.0.capturedData == s.capturedData && r.0.batchMode == s.batchMode
    ensures r.0.batchLabel == s.batchLabel && r.0.batchCount == s.batchCount && r.0.isPredicting == s.isPredicting
    ensures (multiHandLandmarks.None? || |multiHandLandmarks.value| == 0) ==> r == (s, None)
    ensures multiHandLandmarks.Some? && |multiHandLandmarks.value| > 0 ==>
      var v := Flatten(multiHandLandmarks.value[0]);
      && |v| == 3 * |multiHandLandmarks.value[0]|
      && r.0.latestCoordsArray == Some(v)
      && r.0.latestCoords == Some(CoordsString(fmt, v))
      && r.1 == (if s.isPredicting then Some(v) else None)
  {
    match multiHandLandmarks
    case Some(hands) =>
      if |hands| > 0 then
        var v := Flatten(hands[0]);
        var s' := s.(latestCoords := Some(CoordsString(fmt, v)), latestCoordsArray := Some(v));
        (s', if s.isPredicting then Some(v) else None)
      else (s, None)
    case None => (s, None)
  }

  /** The hands after the first are drawn only: they never influence the session or the request. */
  lemma OnlyFirstHandCounts(s: Session, h: Hand, more: seq<Hand>, other: seq<Hand>, fmt: real -> string)
    ensures FrameStep(s, Some([h] + more), fmt) == FrameStep(s, Some([h] + other), fmt)
  {
    assert ([h] + more)[0] == h == ([h] + other)[0];
  }

  /** The prediction-mode button flips `isPredicting` and nothing else. */
  function TogglePredictionStep(s: Session): (r: Session)
    ensures r.isPredicting == !s.isPredicting
    ensures r.(isPredicting := s.isPredicting) == s
  {
    s.(isPredicting := !s.isPredicting)
  }

  /**
   * The batch toggle: switching on restarts the counter; switching off clears
   * the label and the counter and reports how many samples the run captured
   * when there were any. The dataset is never touched.
   */
  function ToggleBatchStep(s: Session): (r: (Session, Option<nat>))
    ensures r.0.batchMode == !s.batchMode
    ensures r.0.batchCount == 0
    ensures r.0.capturedData == s.capturedData
    ensures r.0.batchLabel == if s.batchMode then "" else s.batchLabel
    ensures r.0.(batchMode := s.batchMode, batchLabel := s.batchLabel, batchCount := s.batchCount) == s
    ensures r.1.Some? <==> s.batchMode && s.batchCount > 0
    ensures r.1.Some? ==> r.1.value == s.batchCount
  {
    if !s.batchMode then (s.(batchMode := true, batchCount := 0), None)
    else (s.(batchMode := false, batchLabel := "", batchCount := 0), if s.batchCount > 0 then Some(s.batchCount) else None)
  }

  /** Typing in the label field: the armed label is the trimmed text, empty exactly when the text is blank. */
  function LabelInputStep(s: Session, text: string): (r: Session)
    ensures IsTrimmed(r.batchLabel)
    ensures r.batchLabel == "" <==> Blank(text)
    ensures r.(batchLabel := s.batchLabel) == s
  {
    s.(batchLabel := Trim(text))
  }

  /**
   * The capture button. `prompt` is what `prompt("Enter label:")` would return
   * (`None` for cancel); it is consulted only outside batch mode. A row is
   * appended exactly when coordinates are present and the label in force
   * (the armed one in batch mode, the prompted one otherwise) is non-empty.
   */
  function CaptureStep(s: Session, prompt: Option<string>): (r: (Session, CaptureOutcome))
    ensures r.1.Captured? <==> Truthy(s.latestCoords) && (if s.batchMode then s.batchLabel != "" else Truthy(prompt))
    ensures r.1.Captured? ==> r.1.labelText != "" && r.1.labelText == (if s.batchMode then s.batchLabel else prompt.value)
    ensures r.1 == NoHand <==> !Truthy(s.latestCoords)
    ensures r.1 == MissingLabel <==> Truthy(s.latestCoords) && s.batchMode && s.batchLabel == ""
    ensures r.0.capturedData == s.capturedData + (if r.1.Captured? then [Row(s.latestCoords.value, r.1.labelText)] else [])
    ensures r.0.batchCount == s.batchCount + (if r.1.Captured? && s.batchMode then 1 else 0)
    ensures r.0.(capturedData := s.capturedData, batchCount := s.batchCount) == s
  {
    if !Truthy(s.latestCoords) then (s, NoHand)
    else if s.batchMode && s.batchLabel != "" then
      (s.(capturedData := s.capturedData + [Row(s.latestCoords.value, s.batchLabel)], batchCount := s.batchCount + 1),
       Captured(s.batchLabel))
    else if !s.batchMode then
      if Truthy(prompt) then
        (s.(capturedData := s.capturedData + [Row(s.latestCoords.value, prompt.value)]), Captured(prompt.value))
      else (s, Cancelled)
    else (s, MissingLabel)
  }

  /** A rejected capture (no hand, no label, cancelled prompt) leaves the whole session as it was. */
  lemma RejectedCaptureChangesNothing(s: Session, prompt: Option<string>)
    requires !CaptureStep(s, prompt).1.Captured?
    ensures CaptureStep(s, prompt).0 == s
  {
  }

  /** `n` consecutive batch captures. */
  function BatchCaptures(s: Session, n: nat): (t: Session)
    decreases n
  {
    if n == 0 then s else BatchCaptures(CaptureStep(s, None).0, n - 1)
  }

  /** `n` copies of a row. */
  function Repeat(row: string, n: nat): (r: seq<string>)
    ensures |r| == n
    ensures forall i :: 0 <= i < n ==> r[i] == row
  {
    if n == 0 then [] else [row] + Repeat(row, n - 1)
  }

  /**
   * With coordinates present and a non-empty armed label, N captures append N
   * identical rows `coords,label` and raise the batch counter by N.
   */
  lemma {:induction false} BatchCapturesAppend(s: Session, n: nat)
    requires s.batchMode && s.batchLabel != "" && Truthy(s.latestCoords)
    ensures BatchCaptures(s, n).capturedData == s.capturedData + Repeat(Row(s.latestCoords.value, s.batchLabel), n)
    ensures BatchCaptures(s, n).batchCount == s.batchCount + n
    ensures BatchCaptures(s, n).(capturedData := s.capturedData, batchCount := s.batchCount) == s
    decreases n
  {
    if n > 0 {
      var row := Row(s.latestCoords.value, s.batchLabel);
      var t := CaptureStep(s, None).0;
      BatchCapturesAppend(t, n - 1);
      assert Repeat(row, n) == [row] + Repeat(row, n - 1);
      assert t.capturedData + Repeat(row, n - 1) == s.capturedData + Repeat(row, n);
    }
  }

  /**
   * The download button: the saved file, or nothing for an empty dataset; as
   * long as no row holds '#', the file is the rows joined by newlines.
   */
  function DownloadStep(s: Session): (csv: Option<string>)
    ensures csv.None? <==> s.capturedData == []
    ensures (forall i :: 0 <= i < |s.capturedData| ==> '#' !in s.capturedData[i]) ==> csv == Export(s.capturedData)
  {
    Download(s.capturedData)
  }

  /** Everything that can happen to the page. */
  datatype Event =
    | Frame(multiHandLandmarks: Option<seq<Hand>>)
    | TogglePrediction
    | ToggleBatch
    | LabelInput(text: string)
    | CaptureClick(prompt: Option<string>)
    | DownloadClick

  /** The session after one event. */
  function Step(s: Session, e: Event, fmt: real -> string): (t: Session)
  {
    match e
    case Frame(m) => FrameStep(s, m, fmt).0
    case TogglePrediction => TogglePredictionStep(s)
    case ToggleBatch => ToggleBatchStep(s).0
    case LabelInput(text) => LabelInputStep(s, text)
    case CaptureClick(p) => CaptureStep(s, p).0
    case DownloadClick => s
  }

  /** The session after a sequence of events. */
  function Run(s: Session, es: seq<Event>, fmt: real -> string): (t: Session)
    decreases |es|
  {
    if es == [] then s else Run(Step(s, es[0], fmt), es[1..], fmt)
  }

  /**
   * The inputs of an event as the page receives them: a detected first hand
   * is complete (the detector reports 21 points per hand), and a typed label
   * text or a prompt answer contains none of the characters in `bad`.
   */
  predicate EventOk(e: Event, bad: set<char>)
  {
    match e
    case Frame(m) => m.Some? && |m.value| > 0 ==> |m.value[0]| == LandmarksPerHand
    case LabelInput(text) => Avoids(text, bad)
    case CaptureClick(p) => p.Some? ==> Avoids(p.value, bad)
    case _ => true
  }

  /** A row as the page stores it: a complete hand's coordinate text, a comma, and a non-empty label avoiding `bad`. */
  ghost predicate PageRow(row: string, fmt: real -> string, bad: set<char>)
  {
    exists v: seq<real>, l: string :: |v| == VectorLength && l != "" && Avoids(l, bad) && row == Row(CoordsString(fmt, v), l)
  }

  /**
   * What holds of the session at all times: the counter only counts rows that
   * are in the dataset and is zero outside batch mode; the armed label is
   * trimmed; the coordinate text is the formatted 63-value vector, the two
   * being set together; and every row is a page row.
   */
  ghost predicate Inv(s: Session, fmt: real -> string, bad: set<char>)
  {
    && s.batchCount <= |s.capturedData|
    && (!s.batchMode ==> s.batchCount == 0)
    && IsTrimmed(s.batchLabel)
    && Avoids(s.batchLabel, bad)
    && (s.latestCoords.Some? <==> s.latestCoordsArray.Some?)
    && (s.latestCoordsArray.Some? ==>
          |s.latestCoordsArray.value| == VectorLength && s.latestCoords.value == CoordsString(fmt, s.latestCoordsArray.value))
    && (forall i :: 0 <= i < |s.capturedData| ==> PageRow(s.capturedData[i], fmt, bad))
  }

  /** The dataset is append-only: every event keeps the rows already captured, in place. */
  lemma StepKeepsRows(s: Session, e: Event, fmt: real -> string)
    ensures s.capturedData <= Step(s, e, fmt).capturedData
  {
  }

  /** The trimmed label keeps out what the typed text keeps out. */
  lemma TrimAvoids(text: string, bad: set<char>)
    requires Avoids(text, bad)
    ensures Avoids(Trim(text), bad)
  {
    var r := Trim(text);
    var a, b :| 0 <= a <= b <= |text| && r == text[a..b] && Blank(text[..a]) && Blank(text[b..]);
    forall i | 0 <= i < |r| ensures r[i] !in bad {
      assert r[i] == text[a + i];
    }
  }

  /** A capture keeps the invariant: the appended row is a page row. */
  lemma CaptureKeepsInv(s: Session, prompt: Option<string>, fmt: real -> string, bad: set<char>)
    requires Inv(s, fmt, bad)
    requires prompt.Some? ==> Avoids(prompt.value, bad)
    ensures Inv(CaptureStep(s, prompt).0, fmt, bad)
  {
    var r := CaptureStep(s, prompt);
    var t := r.0;
    if r.1.Captured? {
      var v := s.latestCoordsArray.value;
      var l := r.1.labelText;
      var row := Row(CoordsString(fmt, v), l);
      assert PageRow(row, fmt, bad);
      assert t.capturedData == s.capturedData + [row];
      forall i | 0 <= i < |t.capturedData| ensures PageRow(t.capturedData[i], fmt, bad) {
        if i < |s.capturedData| {
          assert t.capturedData[i] == s.capturedData[i];
        }
      }
    }
  }

  /** Every event with acceptable inputs keeps the invariant. */
  lemma StepKeepsInv(s: Session, e: Event, fmt: real -> string, bad: set<char>)
    requires Inv(s, fmt, bad) && EventOk(e, bad)
    ensures Inv(Step(s, e, fmt), fmt, bad)
  {
    match e
    case LabelInput(text) => TrimAvoids(text, bad);
    case CaptureClick(p) => CaptureKeepsInv(s, p, fmt, bad);
    case _ =>
  }

  /** Over any run, the rows captured before stay a prefix of the dataset. */
  lemma {:induction false} RunKeepsRows(s: Session, es: seq<Event>, fmt: real -> string)
    ensures s.capturedData <= Run(s, es, fmt).capturedData
    decreases |es|
  {
    if es != [] {
      StepKeepsRows(s, es[0], fmt);
      RunKeepsRows(Step(s, es[0], fmt), es[1..], fmt);
    }
  }

  /** Over any run of events with acceptable inputs, the invariant holds. */
  lemma {:induction false} RunKeepsInv(s: Session, es: seq<Event>, fmt: real -> string, bad: set<char>)
    requires Inv(s, fmt, bad)
    requires forall i :: 0 <= i < |es| ==> EventOk(es[i], bad)
    ensures Inv(Run(s, es, fmt), fmt, bad)
    decreases |es|
  {
    if es != [] {
      StepKeepsInv(s, es[0], fmt, bad);
      assert forall i :: 1 <= i < |es| ==> es[1..][i - 1] == es[i];
      RunKeepsInv(Step(s, es[0], fmt), es[1..], fmt, bad);
    }
  }

  /** A page row keeps out a line break or '#' that its label text avoids. */
  lemma PageRowKeepsOut(row: string, fmt: real -> string, bad: set<char>, c: char)
    requires FormatSafe(fmt) && PageRow(row, fmt, bad)
    requires (c == '\n' || c == '#') && c in bad
    ensures c !in row
  {
    var v, l :| |v| == VectorLength && l != "" && Avoids(l, bad) && row == Row(CoordsString(fmt, v), l);
    RowKeepsOut(fmt, v, l, c);
  }

  /** A page row whose label text avoids commas has 64 fields. */
  lemma PageRowFields(row: string, fmt: real -> string, bad: set<char>)
    requires FormatSafe(fmt) && PageRow(row, fmt, bad) && ',' in bad
    ensures |Split(row, ',')| == VectorLength + 1
  {
    var v, l :| |v| == VectorLength && l != "" && Avoids(l, bad) && row == Row(CoordsString(fmt, v), l);
    RowHas64Fields(fmt, v, l);
  }

  /**
   * After any run from page load whose label texts and prompt answers hold no
   * newline and no '#', the saved file has exactly one line per captured row,
   * in capture order.
   */
  lemma DownloadAfterRun(es: seq<Event>, fmt: real -> string)
    requires FormatSafe(fmt)
    requires forall i :: 0 <= i < |es| ==> EventOk(es[i], {'\n', '#'})
    ensures DownloadStep(Run(Initial, es, fmt)).None? <==> Run(Initial, es, fmt).capturedData == []
    ensures Run(Initial, es, fmt).capturedData != [] ==>
      Split(DownloadStep(Run(Initial, es, fmt)).value, '\n') == Run(Initial, es, fmt).capturedData
  {
    var bad := {'\n', '#'};
    RunKeepsInv(Initial, es, fmt, bad);
    var rows := Run(Initial, es, fmt).capturedData;
    forall i | 0 <= i < |rows| ensures '\n' !in rows[i] && '#' !in rows[i] {
      PageRowKeepsOut(rows[i], fmt, bad, '\n');
      PageRowKeepsOut(rows[i], fmt, bad, '#');
    }
    if rows != [] {
      ExportLines(rows);
    }
  }

  /**
   * After any run from page load whose label texts and prompt answers hold no
   * comma, every captured row has 64 fields: 63 coordinates and the label.
   */
  lemma RunRowsHave64Fields(es: seq<Event>, fmt: real -> string)
    requires FormatSafe(fmt)
    requires forall i :: 0 <= i < |es| ==> EventOk(es[i], {','})
    ensures forall i :: 0 <= i < |Run(Initial, es, fmt).capturedData| ==>
      |Split(Run(Initial, es, fmt).capturedData[i], ',')| == VectorLength + 1
  {
    var bad := {','};
    RunKeepsInv(Initial, es, fmt, bad);
    var rows := Run(Initial, es, fmt).capturedData;
    forall i | 0 <= i < |rows| ensures |Split(rows[i], ',')| == VectorLength + 1 {
      PageRowFields(rows[i], fmt, bad);
    }
  }

  /**
   * After any run from page load whose typed texts hold no comma, newline or
   * '#', the saved file has one line per captured row, in capture order, and
   * every line has 64 fields: 63 coordinates and the label.
   */
  lemma DownloadedFileHas64Columns(es: seq<Event>, fmt: real -> string)
    requires FormatSafe(fmt)
    requires forall i :: 0 <= i < |es| ==> EventOk(es[i], {',', '\n', '#'})
    ensures var rows := Run(Initial, es, fmt).capturedData;
      rows != [] ==>
        && Split(DownloadStep(Run(Initial, es, fmt)).value, '\n') == rows
        && forall i :: 0 <= i < |rows| ==> |Split(rows[i], ',')| == VectorLength + 1
  {
    var bad := {',', '\n', '#'};
    RunKeepsInv(Initial, es, fmt, bad);
    var rows := Run(Initial, es, fmt).capturedData;
    forall i | 0 <= i < |rows| ensures '\n' !in rows[i] && '#' !in rows[i] && |Split(rows[i], ',')| == VectorLength + 1 {
      PageRowKeepsOut(rows[i], fmt, bad, '\n');
      PageRowKeepsOut(rows[i], fmt, bad, '#');
      PageRowFields(rows[i], fmt, bad);
    }
    if rows != [] {
      ExportLines(rows);
    }
  }

  /**
   * The batch scenario: a hand is visible, batch mode is armed with "B", three
   * captures follow and batch mode is switched off. The dataset holds three
   * rows labelled "B", the page reports 3, and the counter is back at 0.
   */
  lemma BatchOfThreeScenario(h: Hand, fmt: real -> string)
    requires |h| == LandmarksPerHand
    ensures
      var s1 := FrameStep(Initial, Some([h]), fmt).0;
      var s2 := LabelInputStep(ToggleBatchStep(s1).0, "B");
      var s3 := BatchCaptures(s2, 3);
      var done := ToggleBatchStep(s3);
      && s3.capturedData == Repeat(Row(CoordsString(fmt, Flatten(h)), "B"), 3)
      && s3.batchCount == 3
      && done.1 == Some(3)
      && done.0.batchCount == 0
      && |done.0.capturedData| == 3
  {
    var s1 := FrameStep(Initial, Some([h]), fmt).0;
    CoordsStringNonEmpty(fmt, Flatten(h));
    var s2 := LabelInputStep(ToggleBatchStep(s1).0, "B");
    assert !Blank("B") by { assert !IsSpace("B"[0]); }
    assert s2.capturedData == [] && s2.batchMode && s2.batchLabel == "B" && s2.batchCount == 0;
    assert s2.latestCoords == Some(CoordsString(fmt, Flatten(h)));
    BatchCapturesAppend(s2, 3);
  }

  /** The page's state as a class: the fields are the script's variables, the methods its handlers. */
  class CaptureSession {
    var capturedData: seq<string>
    var isPredicting: bool
    var batchMode: bool
    var batchLabel: string
    var batchCount: nat
    var latestCoords: Option<string>
    var latestCoordsArray: Option<seq<real>>

    /** The fields as one value. */
    function State(): Session
      reads this
    {
      Session(capturedData, isPredicting, batchMode, batchLabel, batchCount, latestCoords, latestCoordsArray)
    }

    constructor ()
      ensures State() == Initial
    {
      capturedData := [];
      isPredicting := false;
      batchMode := false;
      batchLabel := "";
      batchCount := 0;
      latestCoords := None;
      latestCoordsArray := None;
    }

    /** `onResults`; returns the vector passed to `predictGesture`, if any. */
    method OnResults(multiHandLandmarks: Option<seq<Hand>>, fmt: real -> string) returns (request: Option<seq<real>>)
      modifies this
      ensures (State(), request) == FrameStep(old(State()), multiHandLandmarks, fmt)
    {
      request := None;
      if multiHandLandmarks.Some? && |multiHandLandmarks.value| > 0 {
        var landmarks := multiHandLandmarks.value[0];
        var flatCoords := Flatten(landmarks);
        latestCoords := Some(CoordsString(fmt, flatCoords));
        latestCoordsArray := Some(flatCoords);
        if isPredicting {
          request := latestCoordsArray;
        }
      }
    }

    /** The prediction-mode button. */
    method TogglePrediction()
      modifies this
      ensures State() == TogglePredictionStep(old(State()))
    {
      isPredicting := !isPredicting;
    }

    /** The batch toggle; returns the count announced by "Batch complete!", if any. */
    method ToggleBatch() returns (completed: Option<nat>)
      modifies this
      ensures (State(), completed) == ToggleBatchStep(old(State()))
    {
      batchMode := !batchMode;
      completed := None;
      if batchMode {
        batchCount := 0;
      } else {
        batchLabel := "";
        if batchCount > 0 {
          completed := Some(batchCount);
        }
        batchCount := 0;
      }
    }

    /** The label field's input handler. */
    method OnLabelInput(text: string)
      modifies this
      ensures State() == LabelInputStep(old(State()), text)
    {
      batchLabel := Trim(text);
    }

    /** The capture button; `prompt` is the answer to the label prompt. */
    method Capture(prompt: Option<string>) returns (outcome: CaptureOutcome)
      modifies this
      ensures (State(), outcome) == CaptureStep(old(State()), prompt)
    {
      if !Truthy(latestCoords) {
        return NoHand;
      }
      if batchMode && batchLabel != "" {
        capturedData := capturedData + [Row(latestCoords.value, batchLabel)];
        batchCount := batchCount + 1;
        outcome := Captured(batchLabel);
      } else if !batchMode {
        if Truthy(prompt) {
          capturedData := capturedData + [Row(latestCoords.value, prompt.value)];
          outcome := Captured(prompt.value);
        } else {
          outcome := Cancelled;
        }
      } else {
        outcome := MissingLabel;
      }
    }

    /** The download button; reads the dataset only. */
    method Download() returns (csv: Option<string>)
      ensures csv == DownloadStep(State())
      ensures csv.None? <==> capturedData == []
    {
      if |capturedData| == 0 {
        return None;
      }
      csv := Some(BeforeFragment(Join(capturedData, '\n')));
    }
  }
}
