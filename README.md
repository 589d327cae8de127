# H2V hand-gesture capture and prediction: a Dafny model

H2V is a sign-language helper. A web page shows the camera picture. An
external detector finds hand landmarks in every frame: 21 points per hand,
each with x, y and z. The page flattens the first hand into a 63-value
vector. It can send that vector to a prediction service and show the answer.
It can also label vectors and save them as a CSV dataset. A training script
reads that CSV, doubles it by mirroring every sample left-to-right, and
trains the classifier the service uses.

This project models the sequential logic of those pieces and proves
properties about it:

- `common.dfy` (`Common`): `Option`, `Result`, and an occurrence count.
- `text.dfy` (`Text`): `join`, splitting at a separator (its inverse, used
  to read the exported file back), and JavaScript's `trim`.
- `landmarks.dfy` (`Landmarks`): landmarks, point-major flattening, the
  x-mirror `v[0::3] = 1 - v[0::3]`, and the comma-joined coordinate text.
- `samples.dfy` (`Samples`): the stored row `coords,label`, JavaScript
  truthiness and `${null}`, and the download. The download joins the rows by
  newlines and puts them in a `data:` URI, and the saved file ends at the
  first '#'.
- `wire.dfy` (`Wire`): the `/predict` response body, and what it means for
  its labels to be distinct.
- `frontend.dfy` (`Frontend`): `displayPrediction`, and the capture
  session of `frontend/script.js`. The session is pure step functions over
  a `Session` value, plus the class `CaptureSession` whose handler methods
  are proved against those step functions.
- `legacy.dfy` (`Legacy`): the older page `script.js` as the class
  `LegacyCaptureSession`, with lemmas showing where it differs from the
  newer page.
- `predict_api.dfy` (`PredictApi`): `predict_gesture`, `/gestures`,
  `/stats` and `load_models` of `backend/svm.py`. The classifier and the
  scaler are values holding opaque functions. The label encoder is its list
  of classes.
- `training.dfy` (`Training`): `load_and_prepare_data` and the gates in
  `main` of `backend/train_svm.py`. It also proves that a dataset downloaded
  from the page reads back as one row per sample: its formatted coordinates,
  parsed, and its label.

Behaviour of the code that the model keeps:

- **Labels.** A manually prompted label is stored untrimmed. It only has to
  be non-empty. Only the batch label is trimmed.
- **Field count.** A row has 63 + 1 comma-separated fields only when its
  label has no comma (`Samples.RowHas64Fields`).
- **'#' in a label.** `encodeURI` leaves '#' as it is, so the browser reads
  it as the start of the URI's fragment. The saved file ends just before the
  first '#', and every later row is lost (`Samples.HashCutsDownload`).
- **Wrong vector length.** The error for a vector that is not 63 long is
  raised inside the `try`. Its catch-all turns it into a 500 response, not
  the 400 the handler raises.
- **Threshold.** The display threshold is the constant 0.6 in
  `displayPrediction`. While prediction mode is on, a prediction request is
  sent on every frame with a detected hand, and nothing waits for the
  previous one.
- **Demo notice.** `main` prints the demo-mode notice after the sample gate
  and before training, so it appears whatever training does next.

## Model

| member | source | states |
|---|---|---|
| `Text.Join` | frontend/script.js:65 | The joined text starts with the first part. |
| `Text.JoinCountsSeparators` | frontend/script.js:65 | Joining n ≥ 1 parts that do not contain the separator puts exactly n − 1 separators into the text. |
| `Text.Split` | backend/train_svm.py:15 | Cutting a text at a separator gives one piece more than there are separators, and no piece contains the separator. |
| `Text.Trim` | frontend/script.js:243 | The batch label has no white space at either end. It is a middle slice of the typed text with only white space cut away, and it is empty exactly when the text is blank. |
| `Text.TrimIdempotent` | frontend/script.js:243 | Trimming an already trimmed label changes nothing. |
| `Text.SplitJoin` | frontend/script.js:291 | When no row contains the separator, splitting the joined text at the separator gives back exactly the rows. |
| `Text.JoinSplit` | frontend/script.js:291 | Joining the pieces of any text at a separator rebuilds the text, so `join` loses nothing. |
| `Landmarks.Flatten` | frontend/script.js:64 | A hand of n points flattens to 3n values. Entries 3i, 3i+1 and 3i+2 are point i's x, y and z. |
| `Landmarks.CompleteHandLength` | frontend/script.js:63-64 | A complete 21-point hand gives the 63 values the service expects. |
| `Landmarks.UnflattenFlatten` | frontend/script.js:64 | Regrouping a flattened hand into triples gives back the hand. |
| `Landmarks.FlattenUnflatten` | frontend/script.js:64 | Every vector whose length is a multiple of 3 is the flattening of its own regrouping. |
| `Landmarks.Mirror` | backend/svm.py:115-116 | The mirrored vector has the same length. Entries 0, 3, 6, … become 1 − x (they and the originals sum to 1), and all other entries are kept. |
| `Landmarks.MirrorIsHandReflection` | backend/svm.py:116 | Changing indices 0, 3, 6, … to 1 − v is the same as reflecting each landmark's x and keeping y and z. |
| `Landmarks.MirrorInvolution` | backend/svm.py:115-116 | Mirroring twice restores the vector. |
| `Landmarks.CoordsString` | frontend/script.js:65 | With a formatter that writes no comma, the text of n ≥ 1 coordinates holds exactly n − 1 commas. |
| `Landmarks.CoordsStringFields` | frontend/script.js:65 | The coordinate text splits at commas into exactly the formatted coordinates, in order. |
| `Landmarks.CoordsStringNonEmpty` | frontend/script.js:253 | The coordinate text of a detected hand is never the falsy empty string. |
| `Landmarks.CoordsStringKeepsOut` | frontend/script.js:65 | The coordinate text contains neither a newline nor '#'. |
| `Samples.JsText` | script.js:63 | A cancelled prompt (`null`) is written into the row as the text "null". A typed answer is written as it was typed. |
| `Samples.Row` | frontend/script.js:260 | The row is the coordinate text, one comma, then the label, and nothing else. |
| `Samples.Export` | frontend/script.js:286-291 | The download produces nothing exactly when the dataset is empty. Otherwise it produces the rows joined by newlines. |
| `Samples.BeforeFragment` | frontend/script.js:291-294 | The saved text is a prefix of the URI body without '#'. It is the whole body, or it stops just before a '#'. |
| `Samples.Download` | frontend/script.js:286-294 | The download saves nothing exactly when the dataset is empty. When no row contains '#', it saves exactly the newline-joined rows. |
| `Samples.HashCutsDownload` | frontend/script.js:291-294 | For the samples labelled "C#" and "D", the joined text holds both rows, but the saved file is only "0.1,C". |
| `Samples.ExportLines` | frontend/script.js:291 | A non-empty export has exactly one line per captured row, in capture order. |
| `Samples.RowFields` | frontend/script.js:260 | A stored row splits into the formatted coordinates followed by the pieces of the label. Its field count is coordinates + 1 + commas in the label. |
| `Samples.RowHas64Fields` | frontend/script.js:260 | A row of 63 coordinates has 64 fields if and only if its label contains no comma. |
| `Samples.RowKeepsOut` | frontend/script.js:260 | A row contains no newline, and no '#', when its label contains none. |
| `Frontend.BandColor` | frontend/script.js:103 | The colour is green if and only if confidence > 0.7, and red if and only if confidence ≤ 0.5. Otherwise it is amber. |
| `Frontend.SortByProbability` | frontend/script.js:139-140 | The entries are reordered into descending probability, and the result is a permutation of the entries. |
| `Frontend.TopThree` | frontend/script.js:139-141 | Keeps min(3, n) entries of the distribution, in descending order. No entry left out is more likely than a kept one. |
| `Frontend.WithoutLabel` | frontend/script.js:144-148 | Drops exactly the entries that carry the predicted label, every copy of them, and keeps every other entry. The result is a subsequence of the input, so the order and repeats are kept. Its length is the input length less the number of dropped entries, and a descending input stays descending. |
| `Frontend.DisplayPrediction` | frontend/script.js:101-148 | "Unclear" appears if and only if confidence < 0.6, and the gesture and confidence are shown unchanged. A clear display is painted in the colour band of its confidence (`BandColor`), so it is never red. The alternatives are exactly the top 3 entries whose label is not the predicted gesture, in the top-3 order, so at most 3 and descending. No entry outside the top 3 beats them. |
| `Frontend.OthersCount` | frontend/script.js:139-148 | The number of alternatives is min(3, n) less the number of top-3 entries that carry the predicted label. |
| `Frontend.OthersCountWithDistinctLabels` | frontend/script.js:139-148 | For a response with distinct labels, min(3, n) alternatives are listed, or one fewer when the predicted gesture is among the top 3. |
| `Frontend.FrameStep` | frontend/script.js:55-78 | With no hand, nothing changes and no request is made. Otherwise only the first hand's flattened vector (3·n long) and its text become the latest coordinates. The vector is sent for prediction exactly when prediction mode is on. The dataset and batch state are untouched. |
| `Frontend.OnlyFirstHandCounts` | frontend/script.js:57-63 | Frames that share their first hand give the same session and request, whatever other hands they contain. |
| `Frontend.TogglePredictionStep` | frontend/script.js:161-162 | Flips prediction mode and changes nothing else. |
| `Frontend.ToggleBatchStep` | frontend/script.js:218-239 | Flips batch mode and sets the counter to 0. Switching off clears the label. The completion message is issued, with the count, exactly when a batch run captured samples. The dataset is unchanged. |
| `Frontend.LabelInputStep` | frontend/script.js:242-243 | The armed label becomes the trimmed text. It is empty exactly when the text is blank, and nothing else changes. |
| `Frontend.CaptureStep` | frontend/script.js:252-282 | A row is appended if and only if coordinates are present and the label in force is non-empty. That label is the armed one in batch mode and the prompted one otherwise. Exactly one row `coords,label` is appended. The counter rises by one only for batch captures. The outcome names the reason for each rejection, and a rejection changes nothing. |
| `Frontend.RejectedCaptureChangesNothing` | frontend/script.js:253-256 | A capture that stores nothing leaves the whole session as it was. |
| `Frontend.BatchCapturesAppend` | frontend/script.js:258-262 | N batch captures with a hand and a non-empty label append N copies of `coords,label` and raise the counter by N. |
| `Frontend.DownloadStep` | frontend/script.js:285-294 | The download saves nothing exactly when no sample was captured. When no row contains '#', it saves the rows joined by newlines. |
| `Frontend.StepKeepsRows` | frontend/script.js:252-282 | Every event keeps the rows already captured as a prefix of the dataset. |
| `Frontend.StepKeepsInv` | frontend/script.js:218-282 | Every event whose inputs avoid a set of characters keeps the invariant. The invariant: counter ≤ rows, counter 0 outside batch mode, and the armed label trimmed and avoiding the set. The coordinate text is the formatted 63-value vector, and the two are set together. Every row is `Row(CoordsString(fmt, v), l)` for a 63-value v and a non-empty label l that avoids the set. |
| `Frontend.RunKeepsRows` | frontend/script.js:50-282 | Over any sequence of events the dataset only grows at its end. |
| `Frontend.RunKeepsInv` | frontend/script.js:50-282 | Over any sequence of events whose inputs avoid the set, the invariant holds throughout. |
| `Frontend.DownloadAfterRun` | frontend/script.js:252-294 | After any run from page load whose typed texts contain no newline and no '#', the download saves nothing exactly when no row was captured. Otherwise the saved file splits at newlines into exactly the captured rows, in capture order. |
| `Frontend.DownloadedFileHas64Columns` | frontend/script.js:252-294 | After any run from page load whose typed texts contain no comma, newline or '#', the saved file splits at newlines into exactly the captured rows, and every row has 64 comma-separated fields. |
| `Frontend.RunRowsHave64Fields` | frontend/script.js:258-274 | After any run from page load whose typed texts contain no comma, every captured row has 64 comma-separated fields. |
| `Frontend.BatchOfThreeScenario` | frontend/script.js:218-262 | The session shows a hand, arms batch mode with "B", captures three times and disarms. The result is three rows labelled "B", a report of 3, and a counter back at 0. |
| `Frontend.CaptureSession.constructor` | frontend/script.js:44-48 | The page starts with an empty dataset, both modes off, an empty label, a zero counter and no coordinates. |
| `Frontend.CaptureSession.OnResults` | frontend/script.js:50-81 | Updates the fields and returns the prediction request as `FrameStep` prescribes. |
| `Frontend.CaptureSession.TogglePrediction` | frontend/script.js:161-174 | Updates the fields as `TogglePredictionStep` prescribes. |
| `Frontend.CaptureSession.ToggleBatch` | frontend/script.js:218-239 | Updates the fields and returns the completion count as `ToggleBatchStep` prescribes. |
| `Frontend.CaptureSession.OnLabelInput` | frontend/script.js:242-249 | Updates the label as `LabelInputStep` prescribes. |
| `Frontend.CaptureSession.Capture` | frontend/script.js:252-282 | Updates the dataset and counter and returns the outcome as `CaptureStep` prescribes. |
| `Frontend.CaptureSession.Download` | frontend/script.js:285-301 | Returns what `DownloadStep` prescribes for the current dataset, which is absent exactly when the dataset is empty. |
| `Legacy.HandTextFields` | script.js:36-39 | With a formatter that writes no comma, the text of a hand of n ≥ 1 points holds 3n − 1 commas, so it has 3n fields. |
| `Legacy.HandTextAgrees` | script.js:36-39 | Formatting each coordinate while flattening gives the same text as the newer page's flatten-then-format. |
| `Legacy.FormattedTriplesAgree` | script.js:36-38 | The formatted triples are the formatted flat vector. |
| `Legacy.Overwrite` | script.js:32-47 | After the `forEach` loop the latest coordinates are the last hand's text. With no hands they are unchanged. |
| `Legacy.FrameLatest` | script.js:25-51 | A missing or empty hand list leaves the latest coordinates unchanged. Otherwise they become the last hand's text. |
| `Legacy.CaptureRows` | script.js:60-65 | With coordinates, exactly one row is appended and the earlier rows are kept. This holds even for an empty or cancelled label. The new row is `coords,label` for a typed label and `coords,null` for a cancelled prompt. Without coordinates, nothing is appended. |
| `Legacy.PagesKeepDifferentHands` | script.js:32-47 | For a two-hand frame, the newer page keeps the first hand and the older page keeps the last. |
| `Legacy.PagesTreatCancelDifferently` | script.js:60-65 | A cancelled prompt stores nothing on the newer page but a "null"-labelled row on the older one. |
| `Legacy.LegacyCaptureSession.constructor` | script.js:23 | Starts with an empty dataset and no coordinates. |
| `Legacy.LegacyCaptureSession.OnResults` | script.js:25-51 | A missing hand list leaves the coordinates. Otherwise each hand's text is shown and the last one is stored. The dataset is untouched. |
| `Legacy.LegacyCaptureSession.Capture` | script.js:60-66 | Appends `coords,label` whenever coordinates are present, whatever the label. |
| `Legacy.LegacyCaptureSession.Download` | script.js:74-87 | Returns the same file as the newer page's download: nothing for an empty dataset, otherwise the newline-joined rows cut at the first '#'. |
| `PredictApi.Classify` | backend/svm.py:113-154 | Succeeds only if both opinions index their own probabilities and the encoder knows the chosen classes. The original opinion is chosen iff its confidence ≥ the mirrored one's, and the confidence returned is the larger. The gesture is the chosen class's name. Entry i of the probability map is (class i, chosen probability i), and the map holds (gesture, confidence). Every failure is a 500. |
| `PredictApi.Predict` | backend/svm.py:94-157 | Answers 503 if and only if a model is missing, and 503 always means "not loaded". With models loaded, a vector not 63 long is a 500 naming its length. With models loaded and 63 values, the answer is `Classify` on the vector and its mirror image. Success implies length 63. |
| `PredictApi.AnswerListsPrediction` | backend/svm.py:140-154 | With distinct encoder classes, a successful answer names each class at most once. Its probabilities include the predicted gesture with its confidence. |
| `PredictApi.LengthCheckIgnoresModels` | backend/svm.py:105-111 | The length rejection comes before any model is used: every set of loaded models gives the same answer. |
| `PredictApi.MirroredRequestSameAnswer` | backend/svm.py:113-138 | Sending the mirrored vector gives the same answer unless the two confidences tie. |
| `PredictApi.TieFavoursOriginal` | backend/svm.py:133-135 | On equal confidences the original orientation's class is returned. |
| `PredictApi.MirrorInPlace` | backend/svm.py:115-116 | The in-place slice assignment leaves the array equal to `Mirror` of its old contents. |
| `PredictApi.Backend.constructor` | backend/svm.py:24-26 | All three models start absent. |
| `PredictApi.Backend.LoadModels` | backend/svm.py:29-48 | Models are assigned in file order, and the first failed load stops the sequence. Models loaded before a failure stay assigned. |
| `PredictApi.Backend.PredictGesture` | backend/svm.py:94-157 | Returns what `Predict` prescribes for the current models, computing the mirror in place on a copy; 503 if and only if not ready. |
| `PredictApi.Backend.GetAvailableGestures` | backend/svm.py:83-92 | Returns 503 if and only if no encoder is loaded. Otherwise returns the encoder's classes with `count` equal to their number. |
| `PredictApi.Backend.GetStats` | backend/svm.py:178-187 | Reports `model_loaded` iff the SVM is present. The gesture list is empty when no encoder is loaded. |
| `PredictApi.StartUp` | backend/svm.py:29-40 | After start-up loading, the service is ready if and only if all three files loaded. |
| `Training.Features` | backend/train_svm.py:17-18 | Each feature row is every column but the last, parsed. |
| `Training.Labels` | backend/train_svm.py:19 | The labels are the last column. |
| `Training.MirrorRows` | backend/train_svm.py:25-27 | Every mirrored row has its original's length, and mirroring it again gives the original back. |
| `Training.Augment` | backend/train_svm.py:30 | The stacked set has twice as many rows. |
| `Training.AugmentShape` | backend/train_svm.py:25-30 | The first half is the original rows. Row n+i is row i with columns 0, 3, 6, … replaced by 1 − x and all other columns kept. |
| `Training.LabelCountsDouble` | backend/train_svm.py:31 | Every class occurs exactly twice as often in the doubled labels. |
| `Training.MirrorColumnsInPlace` | backend/train_svm.py:25-27 | The in-place column update changes exactly columns 0, 3, 6, … of every row to 1 − x. |
| `Training.SamplesPerClass` | backend/train_svm.py:35-38 | One count per distinct label, equal to its number of occurrences. |
| `Training.LoadAndPrepareData` | backend/train_svm.py:10-40 | Returns the original features followed by their mirrored copies, and the labels twice. Each class's count is twice its count in the file. |
| `Training.RunTraining` | backend/train_svm.py:123-177 | Stops without training exactly when fewer than 3 CSV rows (5 augmented samples) are present, and reports the augmented count, twice the rows. A missing file ends as "not found". Any other read failure, or a failure in training, ends as an error. Saves if and only if training ran and accuracy > 0.4, with the tip exactly below 0.6, and reports low accuracy otherwise. The demo notice is printed exactly when 5 to 24 augmented samples pass the gate, whatever the outcome. |
| `Training.ReadCsv` | backend/train_svm.py:15 | The table has one row per line of the file. Each row has one field more than its line has commas. |
| `Training.ExportedTable` | backend/train_svm.py:15 | Reading back a downloaded file gives one row per sample: its formatted coordinates followed by its label. This needs labels without comma, newline or '#'. |
| `Training.ExportReadsBack` | backend/train_svm.py:15-19 | A downloaded file reads back as one row per sample: the 63 formatted coordinates and the label. This needs labels without comma, newline or '#'. The label column is the labels, and the features are the parsed coordinate texts. |

## Left out

- MediaPipe `Hands`, `Camera`, `drawConnectors`/`drawLandmarks` and all canvas drawing. These are external components and rendering. A frame's detector output is an input (`Option<seq<Hand>>`).
- Page construction, styling, button texts, the status line, `alert`/`focus`, `resizeCanvas` and mobile detection. These are user interface only. The alerts that carry information are outcomes: the capture outcome and the batch completion count. The result of `prompt()` is an input.
- `predictGesture` and `checkServerConnection`. They are network calls, and overlapping requests are concurrency. The model returns the vector that would be posted.
- The HTML of `displayPrediction` and its `toFixed(1)` percentages are presentation. The model returns the decisions the HTML is built from.
- `toFixed(4)` is a parameter `fmt: real -> string`. Lemmas that split rows require that it writes no comma, no newline and no '#'.
- The `data:` URI prefix, the percent-escaping done by `encodeURI`, and the link click. `Download` returns the file the browser saves: the joined rows up to the first '#', which `encodeURI` leaves unescaped. Every other character is assumed to come back as it was.
- Which controls are visible. The page hides the capture controls while prediction mode is on (frontend/script.js:167) and hides the label field outside batch mode (frontend/script.js:191, 230). `Frontend.Event` and `Frontend.Run` allow every event in every mode, so the run lemmas cover more event sequences than the page lets a user produce; what they prove holds for the page's sequences too.
- The detector's output shape. `Frontend.EventOk` assumes a detected first hand has 21 points, as MediaPipe reports them. The run lemmas `Frontend.RunKeepsInv`, `Frontend.DownloadAfterRun` and `Frontend.RunRowsHave64Fields` hold for runs with such events.
- Frontend.DownloadAfterRun: stated for typed texts without newline and '#'. A label with a newline adds lines, and a label with '#' cuts the file (`Samples.HashCutsDownload`).
- Training.ExportReadsBack: stated for labels without comma, newline and '#'. A comma adds columns (`Samples.RowFields`), a newline adds rows, and a '#' cuts the file (`Samples.HashCutsDownload`).
- JavaScript's `Object.entries` lists integer-like keys first. The model takes the entries in the order the server built them.
- Frontend.SortByProbability: the contract states order and permutation but not stability. The definition is stable, like `Array.prototype.sort`.
- The `/` health endpoint, the `/landmarks/` endpoints and the databases. They are storage plumbing without decision logic. The saved-landmark total for `/stats` is an input.
- scikit-learn, `StandardScaler`, `LabelEncoder`, `train_test_split`, the metrics and `joblib` are foreign libraries. The classifier and scaler are opaque functions, the encoder is its list of classes, and the test accuracy is an input of `RunTraining`. Exceptions are modelled only where the code indexes with a class number.
- pandas parsing: quoting, blank lines, type inference on the label column, and the exception an empty file raises. `ReadCsv` is a plain line and comma split. `RunTraining` takes the read result as `Missing`, `Unreadable` or `Parsed`.
- Floating point. Coordinates and probabilities are `real`, so mirroring is exactly an involution. No IEEE rounding is claimed.
- Printing and logging in both Python files.
