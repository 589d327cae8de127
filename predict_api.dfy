/**
 * The decision logic of the prediction service (backend/svm.py) around its
 * classifier: readiness, input validation, the x-mirrored second opinion, the
 * choice between the two, and the label-to-probability map. The trained
 * classifier, scaler and label encoder are opaque values given by functions.
 */
module PredictApi {
  import opened Common
  import opened Landmarks
  import opened Wire

  /** A trained SVM: `predict` gives a class index, `predictProba` one probability per class. */
  datatype Classifier = Classifier(predict: seq<real> -> nat, predictProba: seq<real> -> seq<real>)

  /** A fitted `StandardScaler`. */
  datatype Scaler = Scaler(transform: seq<real> -> seq<real>)

  /** A fitted `LabelEncoder`: class index i stands for `classes[i]`. */
  datatype Encoder = Encoder(classes: seq<string>)

  /** Why a request failed. */
  datatype Reason =
    | ModelNotLoaded       // a model file was missing at start-up
    | WrongLength(got: nat) // the landmark vector is not 63 long
    | PredictionError      // the classifier or encoder raised

  /** An `HTTPException`: status code and cause. */
  datatype HttpError = HttpError(status: nat, reason: Reason)

  /** One run of scaler and classifier: the predicted class and the class probabilities. */
  datatype Opinion = Opinion(prediction: nat, probabilities: seq<real>)

  /** Scale `x`, then ask the classifier for its class and its probabilities. */
  function Consult(clf: Classifier, sc: Scaler, x: seq<real>): (o: Opinion)
  {
    var scaled := sc.transform(x);
    Opinion(clf.predict(scaled), clf.predictProba(scaled))
  }

  /** `prob[pred]` exists. */
  predicate Indexable(o: Opinion)
  {
    o.prediction < |o.probabilities|
  }

  /** The probability an opinion gives its own prediction (`conf = prob[pred]`). */
  function Confidence(o: Opinion): (c: real)
    requires Indexable(o)
  {
    o.probabilities[o.prediction]
  }

  /**
   * Everything after validation: consult the classifier on the vector and on
   * its mirror image, keep the more confident opinion (the original on a tie),
   * and name the prediction and every probability through the encoder. Any
   * index the probabilities or the encoder do not have is an exception, which
   * the endpoint reports as 500.
   */
  function Classify(clf: Classifier, sc: Scaler, enc: Encoder, original: seq<real>, mirrored: seq<real>): (r: Result<PredictionResponse, HttpError>)
    ensures r.Failure? ==> r.error == HttpError(500, PredictionError)
    ensures r.Success? <==>
      var o, m := Consult(clf, sc, original), Consult(clf, sc, mirrored);
      && Indexable(o) && Indexable(m)
      && var chosen := if Confidence(o) >= Confidence(m) then o else m;
      chosen.prediction < |enc.classes| && |chosen.probabilities| <= |enc.classes|
    ensures r.Success? ==>
      var o, m := Consult(clf, sc, original), Consult(clf, sc, mirrored);
      var chosen := if Confidence(o) >= Confidence(m) then o else m;
      && r.value.confidence == (if Confidence(o) >= Confidence(m) then Confidence(o) else Confidence(m))
      && r.value.gesture == enc.classes[chosen.prediction]
      && |r.value.allProbabilities| == |chosen.probabilities|
      && (forall i :: 0 <= i < |chosen.probabilities| ==> r.value.allProbabilities[i] == (enc.classes[i], chosen.probabilities[i]))
      && r.value.allProbabilities[chosen.prediction] == (r.value.gesture, r.value.confidence)
  {
    var o := Consult(clf, sc, original);
    var m := Consult(clf, sc, mirrored);
    if !Indexable(o) || !Indexable(m) then Failure(HttpError(500, PredictionError))
    else
      var chosen := if Confidence(o) >= Confidence(m) then o else m;
      if chosen.prediction >= |enc.classes| || |chosen.probabilities| > |enc.classes| then
        Failure(HttpError(500, PredictionError))
      else
        var probs := chosen.probabilities;
        var all := seq(|probs|, i requires 0 <= i < |probs| => (enc.classes[i], probs[i]));
        Success(PredictionResponse(enc.classes[chosen.prediction], probs[chosen.prediction], all))
  }

  /**
   * `predict_gesture`: 503 when any of the three models is missing, before
   * anything else; a vector that is not 63 long is rejected before the models
   * are used, and since that rejection is raised inside the `try` whose
   * catch-all re-raises every exception, it leaves the endpoint as a 500.
   */
  function Predict(svm: Option<Classifier>, sc: Option<Scaler>, enc: Option<Encoder>, landmarks: seq<real>): (r: Result<PredictionResponse, HttpError>)
    ensures r.Failure? && r.error.status == 503 <==> svm.None? || sc.None? || enc.None?
    ensures r.Failure? && r.error.status == 503 ==> r.error.reason == ModelNotLoaded
    ensures svm.Some? && sc.Some? && enc.Some? && |landmarks| != VectorLength ==>
      r == Failure(HttpError(500, WrongLength(|landmarks|)))
    ensures r.Success? ==> |landmarks| == VectorLength
    ensures svm.Some? && sc.Some? && enc.Some? && |landmarks| == VectorLength ==>
      r == Classify(svm.value, sc.value, enc.value, landmarks, Mirror(landmarks))
  {
    if svm.None? || sc.None? || enc.None? then Failure(HttpError(503, ModelNotLoaded))
    else if |landmarks| != VectorLength then Failure(HttpError(500, WrongLength(|landmarks|)))
    else Classify(svm.value, sc.value, enc.value, landmarks, Mirror(landmarks))
  }

  /** The length check does not depend on the models: any loaded models give the same rejection. */
  lemma LengthCheckIgnoresModels(c1: Classifier, s1: Scaler, e1: Encoder, c2: Classifier, s2: Scaler, e2: Encoder, landmarks: seq<real>)
    requires |landmarks| != VectorLength
    ensures Predict(Some(c1), Some(s1), Some(e1), landmarks) == Predict(Some(c2), Some(s2), Some(e2), landmarks)
  {
  }

  /**
   * Mirroring the request only swaps the two opinions, so the answer is the
   * same unless the two confidences tie (a tie goes to whichever was the
   * original).
   */
  lemma MirroredRequestSameAnswer(clf: Classifier, sc: Scaler, enc: Encoder, landmarks: seq<real>)
    requires |landmarks| == VectorLength
    requires
      var o, m := Consult(clf, sc, landmarks), Consult(clf, sc, Mirror(landmarks));
      Indexable(o) && Indexable(m) && Confidence(o) != Confidence(m)
    ensures Predict(Some(clf), Some(sc), Some(enc), Mirror(landmarks)) == Predict(Some(clf), Some(sc), Some(enc), landmarks)
  {
    MirrorInvolution(landmarks);
    assert Mirror(Mirror(landmarks)) == landmarks;
  }

  /**
   * With the encoder's classes distinct, as `LabelEncoder` makes them, an
   * answer names every class at most once and lists the predicted gesture
   * with its confidence among all probabilities.
   */
  lemma AnswerListsPrediction(clf: Classifier, sc: Scaler, enc: Encoder, landmarks: seq<real>)
    requires forall i, j :: 0 <= i < j < |enc.classes| ==> enc.classes[i] != enc.classes[j]
    ensures
      var r := Predict(Some(clf), Some(sc), Some(enc), landmarks);
      r.Success? ==> DistinctLabels(r.value.allProbabilities) && (r.value.gesture, r.value.confidence) in r.value.allProbabilities
  {
  }

  /** On a tie the original orientation wins, whatever the mirrored opinion predicted. */
  lemma TieFavoursOriginal(clf: Classifier, sc: Scaler, enc: Encoder, landmarks: seq<real>)
    requires |landmarks| == VectorLength
    requires
      var o, m := Consult(clf, sc, landmarks), Consult(clf, sc, Mirror(landmarks));
      Indexable(o) && Indexable(m) && Confidence(o) == Confidence(m) && o.prediction < |enc.classes| && |o.probabilities| <= |enc.classes|
    ensures
      var r := Predict(Some(clf), Some(sc), Some(enc), landmarks);
      r.Success? && r.value.gesture == enc.classes[Consult(clf, sc, landmarks).prediction]
  {
  }

  /** `X_mirrored[:, 0::3] = 1 - X_mirrored[:, 0::3]` on the copied request vector. */
  method MirrorInPlace(a: array<real>)
    modifies a
    ensures a[..] == Mirror(old(a[..]))
  {
    var i := 0;
    while i < a.Length
      invariant i % 3 == 0
      invariant 0 <= i <= a.Length + 2
      invariant forall k :: 0 <= k < a.Length && k < i ==> a[k] == Mirror(old(a[..]))[k]
      invariant forall k :: i <= k < a.Length ==> a[k] == old(a[k])
    {
      a[i] := 1.0 - a[i];
      i := i + 3;
    }
  }

  /** What `/gestures` answers. */
  datatype GestureList = GestureList(gestures: seq<string>, count: nat)

  /** What `/stats` answers; the saved-landmark total comes from the database. */
  datatype Stats = Stats(totalSavedLandmarks: nat, modelLoaded: bool, availableGestures: seq<string>)

  /** The service's module globals: the three models, absent until loaded. */
  class Backend {
    var svmModel: Option<Classifier>
    var scaler: Option<Scaler>
    var labelEncoder: Option<Encoder>

    constructor ()
      ensures svmModel.None? && scaler.None? && labelEncoder.None?
    {
      svmModel := None;
      scaler := None;
      labelEncoder := None;
    }

    /** All three models are present. */
    predicate Ready()
      reads this
    {
      svmModel.Some? && scaler.Some? && labelEncoder.Some?
    }

    /**
     * `load_models`: the files are loaded in order, each result is `None` when
     * loading raised; the first failure ends the loading, and what was loaded
     * before it stays assigned.
     */
    method LoadModels(modelFile: Option<Classifier>, scalerFile: Option<Scaler>, encoderFile: Option<Encoder>)
      modifies this
      ensures svmModel == if modelFile.Some? then modelFile else old(svmModel)
      ensures scaler == if modelFile.Some? && scalerFile.Some? then scalerFile else old(scaler)
      ensures labelEncoder == if modelFile.Some? && scalerFile.Some? && encoderFile.Some? then encoderFile else old(labelEncoder)
    {
      if modelFile.None? { return; }
      svmModel := modelFile;
      if scalerFile.None? { return; }
      scaler := scalerFile;
      if encoderFile.None? { return; }
      labelEncoder := encoderFile;
    }

    /** `predict_gesture`, with the mirror computed in place on a copy of the request vector. */
    method PredictGesture(landmarks: seq<real>) returns (r: Result<PredictionResponse, HttpError>)
      ensures r == Predict(svmModel, scaler, labelEncoder, landmarks)
      ensures r.Failure? && r.error.status == 503 <==> !Ready()
    {
      if svmModel.None? || scaler.None? || labelEncoder.None? {
        return Failure(HttpError(503, ModelNotLoaded));
      }
      if |landmarks| != VectorLength {
        return Failure(HttpError(500, WrongLength(|landmarks|)));
      }
      var xOriginal := new real[|landmarks|](i requires 0 <= i < |landmarks| => landmarks[i]);
      var xMirrored := new real[xOriginal.Length](i requires 0 <= i < xOriginal.Length reads xOriginal => xOriginal[i]);
      assert xMirrored[..] == landmarks;
      MirrorInPlace(xMirrored);
      assert xOriginal[..] == landmarks;
      r := Classify(svmModel.value, scaler.value, labelEncoder.value, xOriginal[..], xMirrored[..]);
    }

    /** `/gestures`: 503 without an encoder, otherwise its classes and how many there are. */
    function GetAvailableGestures(): (r: Result<GestureList, HttpError>)
      reads this
      ensures r.Failure? <==> labelEncoder.None?
      ensures r.Failure? ==> r.error == HttpError(503, ModelNotLoaded)
      ensures r.Success? ==> r.value.gestures == labelEncoder.value.classes && r.value.count == |r.value.gestures|
    {
      match labelEncoder
      case None => Failure(HttpError(503, ModelNotLoaded))
      case Some(enc) => Success(GestureList(enc.classes, |enc.classes|))
    }

    /** `/stats`: the gesture list is empty when no encoder is loaded. */
    function GetStats(totalSavedLandmarks: nat): (r: Stats)
      reads this
      ensures r.modelLoaded <==> svmModel.Some?
      ensures r.availableGestures == if labelEncoder.Some? then labelEncoder.value.classes else []
      ensures r.totalSavedLandmarks == totalSavedLandmarks
    {
      Stats(totalSavedLandmarks, svmModel.Some?, if labelEncoder.Some? then labelEncoder.value.classes else [])
    }
  }

  /** After start-up loading, the service serves predictions exactly when all three files loaded. */
  method StartUp(modelFile: Option<Classifier>, scalerFile: Option<Scaler>, encoderFile: Option<Encoder>) returns (b: Backend)
    ensures b.Ready() <==> modelFile.Some? && scalerFile.Some? && encoderFile.Some?
  {
    b := new Backend();
    b.LoadModels(modelFile, scalerFile, encoderFile);
  }
}
