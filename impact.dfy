/** Impact prediction of the demonstration service (backend/main.py, predict_impact):
    six request features go to a fitted regressor, and fixed rules turn its single output
    into a risk level with a confidence, a damage cost and a casualty count. */
module Impact {
  import opened Results

  datatype PredictionRequest = PredictionRequest(
    typhoonName: string,
    province: string,
    maxWindSpeed: real,
    rainfall24hr: real,
    stormDuration: int,
    population: int)

  datatype RiskLevel = Low | Medium | High

  /** Any exception of the handler, which answers it with a 500. */
  datatype HttpError = HttpError(status: int)

  datatype PredictionResponse = PredictionResponse(
    predictedCasualties: int,
    predictedDamageCost: real,
    riskLevel: RiskLevel,
    confidence: real)

  /** `hash(province) % 100`. Python's `%` takes the sign of the divisor, as Dafny's does
      for a positive divisor, so the code is the unique residue in [0, 100). */
  function ProvinceCode(provinceHash: int): (code: int)
    ensures 0 <= code < 100
    ensures (provinceHash - code) % 100 == 0
  {
    provinceHash % 100
  }

  /** The feature row: wind, rainfall, duration, population, province code, name length. */
  function FeatureRow(request: PredictionRequest, provinceHash: int): (row: seq<real>)
    ensures |row| == 6
    ensures row[0] == request.maxWindSpeed && row[1] == request.rainfall24hr
    ensures row[2] == request.stormDuration as real && row[3] == request.population as real
    ensures row[4] == ProvinceCode(provinceHash) as real && 0.0 <= row[4] < 100.0
    ensures row[5] == |request.typhoonName| as real && row[5] >= 0.0
  {
    [request.maxWindSpeed, request.rainfall24hr, request.stormDuration as real,
     request.population as real, ProvinceCode(provinceHash) as real, |request.typhoonName| as real]
  }

  function RiskLevelOf(prediction: real): RiskLevel
  {
    if prediction < 10.0 then Low else if prediction < 50.0 then Medium else High
  }

  function Confidence(level: RiskLevel): (confidence: real)
    ensures 0.0 <= confidence <= 1.0
  {
    match level
    case Low => 0.85
    case Medium => 0.78
    case High => 0.92
  }

  function Rank(level: RiskLevel): nat
  {
    match level
    case Low => 0
    case Medium => 1
    case High => 2
  }

  /** Each level holds exactly its band of predictions: below 10, from 10 below 50, 50 up. */
  lemma RiskLevelBands(prediction: real)
    ensures RiskLevelOf(prediction) == Low <==> prediction < 10.0
    ensures RiskLevelOf(prediction) == Medium <==> 10.0 <= prediction < 50.0
    ensures RiskLevelOf(prediction) == High <==> prediction >= 50.0
  {
  }

  lemma RiskLevelMonotone(p1: real, p2: real)
    requires p1 <= p2
    ensures Rank(RiskLevelOf(p1)) <= Rank(RiskLevelOf(p2))
  {
  }

  /** `prediction * 50000 + max_wind_speed * 1000`: linear, increasing in both inputs. */
  function DamageCost(prediction: real, maxWindSpeed: real): (cost: real)
    ensures prediction >= 0.0 && maxWindSpeed >= 0.0 ==> cost >= 0.0
  {
    prediction * 50000.0 + maxWindSpeed * 1000.0
  }

  lemma DamageCostMonotone(p1: real, w1: real, p2: real, w2: real)
    requires p1 <= p2 && w1 <= w2
    ensures DamageCost(p1, w1) <= DamageCost(p2, w2)
  {
  }

  /** Python's `int(x)` on a float: the integer part, rounding toward zero. */
  function TruncateTowardZero(x: real): (t: int)
    ensures x >= 0.0 ==> 0 <= t && t as real <= x < t as real + 1.0
    ensures x < 0.0 ==> t <= 0 && t as real - 1.0 < x <= t as real
  {
    if x >= 0.0 then x.Floor else -((-x).Floor)
  }

  /** predict_impact, with the regressor as `model` (None when it raises) and Python's
      salted string hash of the province as `provinceHash`. A failing model gives a 500;
      otherwise every response field follows from the single prediction. */
  function PredictImpact(request: PredictionRequest, provinceHash: int, model: seq<real> -> Option<real>)
    : (r: Result<PredictionResponse, HttpError>)
    ensures r.Err? <==> model(FeatureRow(request, provinceHash)).None?
    ensures r.Err? ==> r.error == HttpError(500)
    ensures r.Ok? ==> var p := model(FeatureRow(request, provinceHash)).value;
      && r.value.riskLevel == RiskLevelOf(p)
      && r.value.confidence == Confidence(r.value.riskLevel)
      && 0.0 <= r.value.confidence <= 1.0
      && r.value.predictedCasualties == TruncateTowardZero(p)
      && r.value.predictedDamageCost == DamageCost(p, request.maxWindSpeed)
      && (p >= 0.0 ==> r.value.predictedCasualties >= 0)
      && (p >= 0.0 && request.maxWindSpeed >= 0.0 ==> r.value.predictedDamageCost >= 0.0)
  {
    match model(FeatureRow(request, provinceHash))
    case None => Err(HttpError(500))
    case Some(prediction) =>
      var level := RiskLevelOf(prediction);
      Ok(PredictionResponse(TruncateTowardZero(prediction), DamageCost(prediction, request.maxWindSpeed),
                            level, Confidence(level)))
  }
}
