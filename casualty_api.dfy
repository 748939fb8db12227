/** The /api/predict handler of the casualty service (backend/app.py, predict_casualties):
    it runs preprocessing, the fitted model and the interpretation, and turns every
    exception raised on the way into a 400 response, including the 500 that the
    readiness guard of preprocessing raises. */
module CasualtyApi {
  import opened Results
  import opened Preprocess
  import opened Interpret
  import Dicts

  datatype Failure =
    | NoModelLoaded
    | Preprocessing(cause: PreprocessError)
    | ModelFailed                         // the scaler or the fitted model raised
    | TargetNamesMissing                  // len(None) on target names that failed to load
    | Interpreting(reason: InterpretError)

  datatype HttpError = HttpError(status: int, failure: Failure)

  /** The model's output row for a request, None when preprocessing or the model fails. */
  function ModelOutput(c: ModelComponents, predict: seq<real> -> Option<seq<real>>, w: WeatherInput)
    : Option<seq<real>>
  {
    match FeatureVector(c, w)
    case Err(_) => None
    case Ok(features) => predict(features)
  }

  /** predict_casualties. `predict` stands for the scaler and the fitted multi-output model
      together: it maps the assembled feature row to one output per target, or to None
      when either raises. The handler answers 500 only when no model is loaded; every
      later failure becomes a 400, in the order preprocessing, model, target names,
      interpretation. It succeeds exactly when all four pass, with the interpretation of
      the model's output for the preprocessed row. */
  method PredictCasualties(c: ModelComponents, predict: seq<real> -> Option<seq<real>>, w: WeatherInput)
    returns (r: Result<Interpretation, HttpError>)
    ensures !c.model ==> r == Err(HttpError(500, NoModelLoaded))
    ensures c.model && r.Err? ==> r.error.status == 400
    ensures c.model && FeatureVector(c, w).Err? ==> r == Err(HttpError(400, Preprocessing(FeatureVector(c, w).error)))
    ensures c.model && !ComponentsLoaded(c) ==> r == Err(HttpError(400, Preprocessing(ComponentsNotLoaded)))
    ensures c.model && ComponentsLoaded(c) && (w.distanceKm == -1.0 || w.durationInParHours == -1.0) ==>
              r == Err(HttpError(400, Preprocessing(ZeroDivision)))
    ensures c.model && FeatureVector(c, w).Ok? && ModelOutput(c, predict, w).None? ==>
              r == Err(HttpError(400, ModelFailed))
    ensures c.model && ModelOutput(c, predict, w).Some? && c.targetNames.None? ==>
              r == Err(HttpError(400, TargetNamesMissing))
    ensures c.model && ModelOutput(c, predict, w).Some? && c.targetNames.Some?
            && |ModelOutput(c, predict, w).value| < |c.targetNames.value| ==>
              r == Err(HttpError(400, Interpreting(PredictionTooShort)))
    ensures r.Ok? <==> c.model && ModelOutput(c, predict, w).Some? && c.targetNames.Some?
                       && |ModelOutput(c, predict, w).value| >= |c.targetNames.value|
    ensures r.Ok? ==> c.model && ComponentsLoaded(c) && c.targetNames.Some?
                      && w.distanceKm != -1.0 && w.durationInParHours != -1.0
    ensures r.Ok? ==> r.value.predictions == Dicts.ZipToMap(c.targetNames.value, ModelOutput(c, predict, w).value)
    ensures r.Ok? ==> r.value.riskLevel
                        == RiskLevelOf(TotalCasualties(r.value.predictions), AffectedFamilies(r.value.predictions))
    ensures r.Ok? ==> r.value.interpretation.Keys == r.value.predictions.Keys * INTERPRETED_TARGETS
    ensures r.Ok? ==> forall t :: t in r.value.interpretation ==>
                        Some(r.value.interpretation[t]) == MessageFor(t, r.value.predictions[t])
    ensures r.Ok? ==> r.value.recommendations == Recommendations(r.value.riskLevel)
  {
    if !c.model {
      return Err(HttpError(500, NoModelLoaded));
    }
    var features := PreprocessInput(c, w);
    if features.Err? {
      return Err(HttpError(400, Preprocessing(features.error)));
    }
    var outputs := predict(features.value);
    assert ModelOutput(c, predict, w) == outputs;
    if outputs.None? {
      return Err(HttpError(400, ModelFailed));
    }
    if c.targetNames.None? {
      return Err(HttpError(400, TargetNamesMissing));
    }
    var interpreted := InterpretPredictions(c.targetNames.value, outputs.value);
    if interpreted.Err? {
      assert interpreted.error == PredictionTooShort;
      return Err(HttpError(400, Interpreting(interpreted.error)));
    }
    return Ok(interpreted.value);
  }
}
