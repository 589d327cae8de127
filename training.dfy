/**
 * Preparation of the training data (backend/train_svm.py): the CSV the pages
 * export is read back, split into features and labels, doubled by x-mirroring,
 * and gated by sample count and accuracy before the model is saved. Scaling,
 * fitting and evaluation are external; their accuracy is an input.
 */
module Training {
  import opened Common
  import opened Text
  import opened Landmarks
  import opened Samples

  /** The parsed CSV: one row of text fields per line. */
  type Table = seq<seq<string>>

  /** A data frame's shape: every row has the same, non-zero number of columns. */
  predicate WellFormed(t: Table)
  {
    forall i :: 0 <= i < |t| ==> |t[i]| >= 1 && |t[i]| == |t[0]|
  }

  /** `pd.read_csv(path, header=None)` on text without quoting: lines, then comma-separated fields. */
  function ReadCsv(text: string): (t: Table)
    ensures |t| == Occurrences(text, '\n') + 1
    ensures forall i :: 0 <= i < |t| ==> |t[i]| == Occurrences(Split(text, '\n')[i], ',') + 1
  {
    var lines := Split(text, '\n');
    seq(|lines|, i requires 0 <= i < |lines| => Split(lines[i], ','))
  }

  /** `df.iloc[:, :-1].values`: every column but the last, read as numbers by `parse`. */
  function Features(t: Table, parse: string -> real): (x: seq<seq<real>>)
    requires WellFormed(t)
    ensures |x| == |t|
    ensures forall i :: 0 <= i < |t| ==> |x[i]| == |t[i]| - 1
    ensures forall i, j :: 0 <= i < |t| && 0 <= j < |t[i]| - 1 ==> x[i][j] == parse(t[i][j])
  {
    seq(|t|, i requires 0 <= i < |t| => seq(|t[i]| - 1, j requires 0 <= j < |t[i]| - 1 => parse(t[i][j])))
  }

  /** `df.iloc[:, -1].values`: the last column. */
  function Labels(t: Table): (y: seq<string>)
    requires WellFormed(t)
    ensures |y| == |t|
    ensures forall i :: 0 <= i < |t| ==> y[i] == t[i][|t[i]| - 1]
  {
    seq(|t|, i requires 0 <= i < |t| => t[i][|t[i]| - 1])
  }

  /** Each feature row reflected left-to-right; reflecting a copy again gives its original back. */
  function MirrorRows(x: seq<seq<real>>): (m: seq<seq<real>>)
    ensures |m| == |x|
    ensures forall i :: 0 <= i < |x| ==> |m[i]| == |x[i]| && Mirror(m[i]) == x[i]
  {
    var m := seq(|x|, i requires 0 <= i < |x| => Mirror(x[i]));
    assert forall i :: 0 <= i < |x| ==> m[i] == Mirror(x[i]);
    forall i | 0 <= i < |x| ensures Mirror(m[i]) == x[i] {
      MirrorInvolution(x[i]);
    }
    m
  }

  /** `np.vstack([X, X_mirrored])`. */
  function Augment(x: seq<seq<real>>): (a: seq<seq<real>>)
    ensures |a| == 2 * |x|
  {
    x + MirrorRows(x)
  }

  /**
   * The augmented set: the original rows unchanged, then their mirror copies
   * in the same order; a copy differs from its original only in columns
   * 0, 3, 6, ..., which hold 1 - x.
   */
  lemma AugmentShape(x: seq<seq<real>>)
    ensures Augment(x)[..|x|] == x
    ensures forall i :: 0 <= i < |x| ==> |Augment(x)[|x| + i]| == |x[i]|
    ensures forall i, j :: 0 <= i < |x| && 0 <= j < |x[i]| ==>
      Augment(x)[|x| + i][j] == if j % 3 == 0 then 1.0 - x[i][j] else x[i][j]
  {
    var a := Augment(x);
    forall i | 0 <= i < |x| ensures a[|x| + i] == Mirror(x[i]) {
    }
  }

  /** `np.hstack([y, y])` holds every label twice as often as `y`. */
  lemma {:induction false} LabelCountsDouble(y: seq<string>, l: string)
    ensures Occurrences(y + y, l) == 2 * Occurrences(y, l)
  {
    OccurrencesAppend(y, y, l);
  }

  /** `X_mirrored[:, 0::3] = 1 - X_mirrored[:, 0::3]` on the copied feature matrix. */
  method MirrorColumnsInPlace(m: array2<real>)
    modifies m
    ensures forall i, j :: 0 <= i < m.Length0 && 0 <= j < m.Length1 ==>
      m[i, j] == if j % 3 == 0 then 1.0 - old(m[i, j]) else old(m[i, j])
  {
    var i := 0;
    while i < m.Length0
      invariant 0 <= i <= m.Length0
      invariant forall r, c :: 0 <= r < i && 0 <= c < m.Length1 ==>
        m[r, c] == if c % 3 == 0 then 1.0 - old(m[r, c]) else old(m[r, c])
      invariant forall r, c :: i <= r < m.Length0 && 0 <= c < m.Length1 ==> m[r, c] == old(m[r, c])
    {
      var j := 0;
      while j < m.Length1
        invariant j % 3 == 0 && 0 <= j <= m.Length1 + 2
        invariant forall r, c :: 0 <= r < i && 0 <= c < m.Length1 ==>
          m[r, c] == if c % 3 == 0 then 1.0 - old(m[r, c]) else old(m[r, c])
        invariant forall c :: 0 <= c < m.Length1 && c < j ==>
          m[i, c] == if c % 3 == 0 then 1.0 - old(m[i, c]) else old(m[i, c])
        invariant forall c :: j <= c < m.Length1 ==> m[i, c] == old(m[i, c])
        invariant forall r, c :: i < r < m.Length0 && 0 <= c < m.Length1 ==> m[r, c] == old(m[r, c])
      {
        m[i, j] := 1.0 - m[i, j];
        j := j + 3;
      }
      i := i + 1;
    }
  }

  /** The rows of a matrix as sequences. */
  function RowsOf(m: array2<real>): (rows: seq<seq<real>>)
    reads m
    ensures |rows| == m.Length0
    ensures forall i :: 0 <= i < m.Length0 ==> |rows[i]| == m.Length1
    ensures forall i, j :: 0 <= i < m.Length0 && 0 <= j < m.Length1 ==> rows[i][j] == m[i, j]
  {
    seq(m.Length0, i requires 0 <= i < m.Length0 reads m =>
      seq(m.Length1, j requires 0 <= j < m.Length1 reads m => m[i, j]))
  }

  /** The "Samples per class" loop: for each distinct label, how many rows carry it. */
  method SamplesPerClass(y: seq<string>) returns (counts: map<string, nat>)
    ensures forall l :: l in counts <==> l in y
    ensures forall l :: l in counts ==> counts[l] == Occurrences(y, l) && counts[l] >= 1
  {
    var labels := set l | l in y;
    var remaining := labels;
    counts := map[];
    while remaining != {}
      invariant remaining <= labels
      invariant forall l :: l in counts <==> l in labels && l !in remaining
      invariant forall l :: l in counts ==> counts[l] == Occurrences(y, l) && counts[l] >= 1
      decreases |remaining|
    {
      var l :| l in remaining;
      counts := counts[l := Occurrences(y, l)];
      remaining := remaining - {l};
    }
  }

  /**
   * `load_and_prepare_data`: split the frame, mirror a copy of the features in
   * place, stack original and mirrored rows, repeat the labels, and count the
   * samples per class.
   */
  method LoadAndPrepareData(table: Table, parse: string -> real)
    returns (xAugmented: seq<seq<real>>, yAugmented: seq<string>, perClass: map<string, nat>)
    requires WellFormed(table)
    ensures xAugmented == Augment(Features(table, parse))
    ensures yAugmented == Labels(table) + Labels(table)
    ensures forall l :: l in perClass <==> l in Labels(table)
    ensures forall l :: l in perClass ==> perClass[l] == 2 * Occurrences(Labels(table), l)
  {
    var x := Features(table, parse);
    var y := Labels(table);
    var n := |x|;
    var w := if n == 0 then 0 else |x[0]|;
    assert forall i :: 0 <= i < n ==> |x[i]| == w;
    var xMirrored := new real[n, w]((i, j) requires 0 <= i < n && 0 <= j < w => x[i][j]);
    MirrorColumnsInPlace(xMirrored);
    var mirrored := RowsOf(xMirrored);
    assert mirrored == MirrorRows(x) by {
      forall i | 0 <= i < n ensures mirrored[i] == Mirror(x[i]) {
        assert |mirrored[i]| == |Mirror(x[i])|;
      }
    }
    xAugmented := x + mirrored;
    yAugmented := y + y;
    perClass := SamplesPerClass(yAugmented);
    forall l | l in perClass ensures perClass[l] == 2 * Occurrences(y, l) {
      LabelCountsDouble(y, l);
    }
  }

  /** What reading the CSV file gave. */
  datatype CsvFile = Missing | Unreadable | Parsed(table: Table)

  /** How `main` ended. */
  datatype TrainOutcome =
    | CsvNotFound                   // FileNotFoundError
    | TrainingError                 // any other exception
    | TooFewSamples(samples: nat)   // fewer than 5 augmented samples: nothing trained
    | LowAccuracy(accuracy: real)   // trained, but not saved
    | Saved(accuracy: real, suggestMoreData: bool)

  /** A run of `main`: how it ended, and whether the demo-mode notice was printed on the way. */
  datatype TrainReport = TrainReport(outcome: TrainOutcome, demoMode: bool)

  /**
   * `main`: `evaluation` is the test accuracy that scaling, the stratified
   * split, fitting and evaluating produce, or `None` when one of them raised.
   * Training starts only from 5 augmented samples (3 CSV rows), and the model
   * is saved only above 0.4 accuracy. The demo-mode notice comes after the
   * sample gate and before training, so it is printed for 5 to 24 augmented
   * samples whatever training does next.
   */
  function RunTraining(csv: CsvFile, parse: string -> real, evaluation: Option<real>): (r: TrainReport)
    requires csv.Parsed? ==> WellFormed(csv.table)
    ensures r.outcome.TooFewSamples? <==> csv.Parsed? && |csv.table| < 3
    ensures r.outcome.TooFewSamples? ==> r.outcome.samples == 2 * |csv.table|
    ensures r.outcome.Saved? <==> csv.Parsed? && |csv.table| >= 3 && evaluation.Some? && evaluation.value > 0.4
    ensures r.outcome.LowAccuracy? <==> csv.Parsed? && |csv.table| >= 3 && evaluation.Some? && evaluation.value <= 0.4
    ensures r.outcome.Saved? ==> r.outcome.accuracy == evaluation.value && r.outcome.suggestMoreData == (r.outcome.accuracy < 0.6)
    ensures r.outcome == CsvNotFound <==> csv.Missing?
    ensures r.outcome == TrainingError <==> csv.Unreadable? || (csv.Parsed? && |csv.table| >= 3 && evaluation.None?)
    ensures r.demoMode <==> csv.Parsed? && 3 <= |csv.table| < 13
  {
    match csv
    case Missing => TrainReport(CsvNotFound, false)
    case Unreadable => TrainReport(TrainingError, false)
    case Parsed(t) =>
      var samples := |Augment(Features(t, parse))|;
      if samples < 5 then TrainReport(TooFewSamples(samples), false)
      else
        var outcome :=
          match evaluation
          case None => TrainingError
          case Some(accuracy) =>
            if accuracy > 0.4 then Saved(accuracy, accuracy < 0.6) else LowAccuracy(accuracy);
        TrainReport(outcome, samples < 25)
  }

  /** The stored rows of the given samples. */
  function SampleRows(fmt: real -> string, vs: seq<seq<real>>, labels: seq<string>): (rows: seq<string>)
    requires |vs| == |labels|
    ensures |rows| == |vs|
  {
    seq(|vs|, i requires 0 <= i < |vs| => Row(CoordsString(fmt, vs[i]), labels[i]))
  }

  /** Reading a downloaded file back gives, per sample, its formatted coordinates followed by its label. */
  lemma ExportedTable(fmt: real -> string, vs: seq<seq<real>>, labels: seq<string>)
    requires FormatSafe(fmt)
    requires |vs| == |labels| >= 1
    requires forall i :: 0 <= i < |vs| ==> |vs[i]| >= 1
    requires forall i :: 0 <= i < |labels| ==> ',' !in labels[i] && '\n' !in labels[i] && '#' !in labels[i]
    ensures Download(SampleRows(fmt, vs, labels)).Some?
    ensures |ReadCsv(Download(SampleRows(fmt, vs, labels)).value)| == |vs|
    ensures forall i :: 0 <= i < |vs| ==> ReadCsv(Download(SampleRows(fmt, vs, labels)).value)[i] == Formatted(fmt, vs[i]) + [labels[i]]
  {
    var rows := SampleRows(fmt, vs, labels);
    forall i | 0 <= i < |rows| ensures '\n' !in rows[i] && '#' !in rows[i] {
      RowKeepsOut(fmt, vs[i], labels[i], '\n');
      RowKeepsOut(fmt, vs[i], labels[i], '#');
    }
    assert Download(rows) == Export(rows);
    ExportLines(rows);
    forall i | 0 <= i < |vs| ensures Split(rows[i], ',') == Formatted(fmt, vs[i]) + [labels[i]] {
      RowFields(fmt, vs[i], labels[i]);
      SplitWithoutSeparator(labels[i], ',');
    }
  }

  /**
   * Downloaded rows read back: the file of rows `coords,label` has one line per
   * sample and, per line, the 63 formatted coordinates followed by the label;
   * the label column is the labels, the feature columns are the parsed
   * coordinate texts.
   */
  lemma ExportReadsBack(fmt: real -> string, parse: string -> real, vs: seq<seq<real>>, labels: seq<string>)
    requires FormatSafe(fmt)
    requires |vs| == |labels| >= 1
    requires forall i :: 0 <= i < |vs| ==> |vs[i]| == VectorLength
    requires forall i :: 0 <= i < |labels| ==> ',' !in labels[i] && '\n' !in labels[i] && '#' !in labels[i]
    ensures Download(SampleRows(fmt, vs, labels)).Some?
    ensures |ReadCsv(Download(SampleRows(fmt, vs, labels)).value)| == |vs|
    ensures forall i :: 0 <= i < |vs| ==> |ReadCsv(Download(SampleRows(fmt, vs, labels)).value)[i]| == VectorLength + 1
    ensures WellFormed(ReadCsv(Download(SampleRows(fmt, vs, labels)).value))
    ensures Labels(ReadCsv(Download(SampleRows(fmt, vs, labels)).value)) == labels
    ensures forall i, j :: 0 <= i < |vs| && 0 <= j < VectorLength ==>
      Features(ReadCsv(Download(SampleRows(fmt, vs, labels)).value), parse)[i][j] == parse(fmt(vs[i][j]))
  {
    ExportedTable(fmt, vs, labels);
    var t := ReadCsv(Download(SampleRows(fmt, vs, labels)).value);
    assert forall i :: 0 <= i < |t| ==> |t[i]| == VectorLength + 1;
    assert WellFormed(t);
    var y := Labels(t);
    assert forall i :: 0 <= i < |t| ==> y[i] == labels[i];
    forall i, j | 0 <= i < |vs| && 0 <= j < VectorLength
      ensures Features(t, parse)[i][j] == parse(fmt(vs[i][j]))
    {
      assert t[i][j] == Formatted(fmt, vs[i])[j] == fmt(vs[i][j]);
    }
  }
}
