/** The JSON body `/predict` answers with and the prediction display reads. */
module Wire {

  /** One `label: probability` entry of `all_probabilities`, in the order the server built them. */
  type Entry = (string, real)

  /** `{"gesture": ..., "confidence": ..., "all_probabilities": {...}}`. */
  datatype PredictionResponse = PredictionResponse(gesture: string, confidence: real, allProbabilities: seq<Entry>)

  /** No two entries carry the same label, as for the keys of a JSON object. */
  predicate DistinctLabels(s: seq<Entry>)
  {
    forall i, j :: 0 <= i < j < |s| ==> s[i].0 != s[j].0
  }
}
