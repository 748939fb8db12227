/** Feature engineering of the casualty service (backend/app.py, preprocess_input):
    the raw weather reading becomes a dictionary of named features (threshold bins,
    0/1 flags, a pressure deficit and ratio scores), the names the fitted model
    expects are filled in with 0, and the values are laid out in that order. */
module Preprocess {
  import opened Results
  import opened Dicts

  /** One request to the casualty service: where the storm passes and how strong it is. */
  datatype WeatherInput = WeatherInput(
    typhoonName: string,
    region: string,
    province: string,
    cityMunicipality: string,
    distanceKm: real,
    max24hrRainfallMm: real,
    totalStormRainfallMm: real,
    minPressureHpa: real,
    maxSustainedWindKph: real,
    durationInParHours: real)

  /** The artefacts loaded at start-up. `false`/`None` is an artefact that failed to load;
      `encoders` holds only the column names the saved encoders dictionary is keyed by. */
  datatype ModelComponents = ModelComponents(
    model: bool,
    scaler: bool,
    featureNames: Option<seq<string>>,
    targetNames: Option<seq<string>>,
    encoders: Option<set<string>>)

  datatype PreprocessError =
    | ComponentsNotLoaded   // the HTTPException(500) of the readiness guard
    | ZeroDivision          // a ratio score divided by distance + 1 or duration + 1 equal to 0

  /** Python's `all([scaler, feature_names, encoders])`: an empty list or dictionary is falsy. */
  predicate ComponentsLoaded(c: ModelComponents)
  {
    c.scaler && c.featureNames.Some? && |c.featureNames.value| > 0
    && c.encoders.Some? && c.encoders.value != {}
  }

  // Dictionary keys of the raw reading.
  const DISTANCE_KM := "Distance_km"
  const MAX_24HR_RAINFALL_MM := "Max_24hr_Rainfall_mm"
  const TOTAL_STORM_RAINFALL_MM := "Total_Storm_Rainfall_mm"
  const MIN_PRESSURE_HPA := "Min_Pressure_hPa"
  const MAX_SUSTAINED_WIND_KPH := "Max_Sustained_Wind_kph"
  const DURATION_IN_PAR_HOURS := "Duration_in_PAR_Hours"

  // Dictionary keys of the engineered features.
  const WIND_INTENSITY_CATEGORY := "wind_intensity_category"
  const IS_SUPER_TYPHOON := "is_super_typhoon"
  const IS_TYPHOON_PLUS := "is_typhoon_plus"
  const RAINFALL_INTENSITY := "rainfall_intensity"
  const EXTREME_RAINFALL := "extreme_rainfall"
  const PRESSURE_INTENSITY := "pressure_intensity"
  const VERY_LOW_PRESSURE := "very_low_pressure"
  const IS_DIRECT_HIT := "is_direct_hit"
  const IS_NEARBY := "is_nearby"
  const DISTANCE_CATEGORY := "distance_category"
  const LONG_DURATION := "long_duration"
  const VERY_LONG_DURATION := "very_long_duration"
  const WIND_IMPACT_SCORE := "wind_impact_score"
  const RAINFALL_RATE := "rainfall_rate"
  const COMBINED_THREAT_SCORE := "combined_threat_score"

  const RAW_KEYS: set<string> := {DISTANCE_KM, MAX_24HR_RAINFALL_MM, TOTAL_STORM_RAINFALL_MM,
                                  MIN_PRESSURE_HPA, MAX_SUSTAINED_WIND_KPH, DURATION_IN_PAR_HOURS}

  const DERIVED_KEYS: set<string> := {
    WIND_INTENSITY_CATEGORY, IS_SUPER_TYPHOON, IS_TYPHOON_PLUS, RAINFALL_INTENSITY,
    EXTREME_RAINFALL, PRESSURE_INTENSITY, VERY_LOW_PRESSURE, IS_DIRECT_HIT, IS_NEARBY,
    DISTANCE_CATEGORY, LONG_DURATION, VERY_LONG_DURATION, WIND_IMPACT_SCORE, RAINFALL_RATE,
    COMBINED_THREAT_SCORE}

  /** The engineered features that are 0/1 flags. */
  const FLAG_KEYS: set<string> := {
    IS_SUPER_TYPHOON, IS_TYPHOON_PLUS, EXTREME_RAINFALL, VERY_LOW_PRESSURE, IS_DIRECT_HIT,
    IS_NEARBY, LONG_DURATION, VERY_LONG_DURATION}

  /** The `<column>_encoded` keys added, each with the default code 0, for the
      categorical columns that have a saved encoder. */
  function EncodedKeys(encoders: set<string>): set<string>
  {
    (if "Typhoon Name" in encoders then {"Typhoon Name_encoded"} else {})
    + (if "Region" in encoders then {"Region_encoded"} else {})
    + (if "Province" in encoders then {"Province_encoded"} else {})
    + (if "City/Municipality" in encoders then {"City/Municipality_encoded"} else {})
  }

  // ---------------------------------------------------------------------------
  // Threshold bins

  /** How many of the cut-offs x lies strictly above: the independent reading of a
      chain of `k if x > t_k else ...` bins whose cut-offs increase. */
  function ThresholdsExceeded(x: real, thresholds: seq<real>): (n: nat)
    ensures n <= |thresholds|
  {
    if thresholds == [] then 0
    else (if x > thresholds[0] then 1 else 0) + ThresholdsExceeded(x, thresholds[1..])
  }

  lemma {:induction false} ThresholdsExceededMonotone(x: real, y: real, thresholds: seq<real>)
    requires x <= y
    ensures ThresholdsExceeded(x, thresholds) <= ThresholdsExceeded(y, thresholds)
  {
    if thresholds != [] {
      ThresholdsExceededMonotone(x, y, thresholds[1..]);
    }
  }

  /** The cut-offs (km/h) between tropical depression, tropical storm, severe tropical
      storm, typhoon and super typhoon on the five-level PAGASA scale. */
  const WIND_THRESHOLDS: seq<real> := [61.0, 88.0, 117.0, 184.0]
  const RAINFALL_THRESHOLDS: seq<real> := [50.0, 100.0, 200.0, 400.0]
  const DISTANCE_THRESHOLDS: seq<real> := [10.0, 25.0, 50.0, 100.0]

  function WindIntensityCategory(wind: real): (category: nat)
    ensures category <= 4
  {
    if wind > 184.0 then 4 else if wind > 117.0 then 3 else if wind > 88.0 then 2
    else if wind > 61.0 then 1 else 0
  }

  function RainfallIntensity(rainfall: real): (intensity: nat)
    ensures intensity <= 4
  {
    if rainfall > 400.0 then 4 else if rainfall > 200.0 then 3 else if rainfall > 100.0 then 2
    else if rainfall > 50.0 then 1 else 0
  }

  function DistanceCategory(distance: real): (category: nat)
    ensures category <= 4
  {
    if distance > 100.0 then 4 else if distance > 50.0 then 3 else if distance > 25.0 then 2
    else if distance > 10.0 then 1 else 0
  }

  /** Unfolds the count over four cut-offs. */
  lemma FourThresholds(x: real, t: seq<real>)
    requires |t| == 4
    ensures ThresholdsExceeded(x, t) ==
      (if x > t[0] then 1 else 0) + (if x > t[1] then 1 else 0)
      + (if x > t[2] then 1 else 0) + (if x > t[3] then 1 else 0)
  {
    assert t[1..][1..] == t[2..] && t[2..][1..] == t[3..] && t[3..][1..] == [];
    assert ThresholdsExceeded(x, t[3..]) == (if x > t[3] then 1 else 0);
    assert ThresholdsExceeded(x, t[2..]) == (if x > t[2] then 1 else 0) + ThresholdsExceeded(x, t[3..]);
    assert ThresholdsExceeded(x, t[1..]) == (if x > t[1] then 1 else 0) + ThresholdsExceeded(x, t[2..]);
  }

  /** Each bin counts the cut-offs its value exceeds, hence never decreases as the value grows. */
  lemma WindIntensityMonotone(w1: real, w2: real)
    requires w1 <= w2
    ensures WindIntensityCategory(w1) == ThresholdsExceeded(w1, WIND_THRESHOLDS)
    ensures WindIntensityCategory(w2) == ThresholdsExceeded(w2, WIND_THRESHOLDS)
    ensures WindIntensityCategory(w1) <= WindIntensityCategory(w2)
  {
    FourThresholds(w1, WIND_THRESHOLDS);
    FourThresholds(w2, WIND_THRESHOLDS);
    ThresholdsExceededMonotone(w1, w2, WIND_THRESHOLDS);
  }

  lemma RainfallIntensityMonotone(r1: real, r2: real)
    requires r1 <= r2
    ensures RainfallIntensity(r1) == ThresholdsExceeded(r1, RAINFALL_THRESHOLDS)
    ensures RainfallIntensity(r2) == ThresholdsExceeded(r2, RAINFALL_THRESHOLDS)
    ensures RainfallIntensity(r1) <= RainfallIntensity(r2)
  {
    FourThresholds(r1, RAINFALL_THRESHOLDS);
    FourThresholds(r2, RAINFALL_THRESHOLDS);
    ThresholdsExceededMonotone(r1, r2, RAINFALL_THRESHOLDS);
  }

  lemma DistanceCategoryMonotone(d1: real, d2: real)
    requires d1 <= d2
    ensures DistanceCategory(d1) == ThresholdsExceeded(d1, DISTANCE_THRESHOLDS)
    ensures DistanceCategory(d2) == ThresholdsExceeded(d2, DISTANCE_THRESHOLDS)
    ensures DistanceCategory(d1) <= DistanceCategory(d2)
  {
    FourThresholds(d1, DISTANCE_THRESHOLDS);
    FourThresholds(d2, DISTANCE_THRESHOLDS);
    ThresholdsExceededMonotone(d1, d2, DISTANCE_THRESHOLDS);
  }

  /** Python's `1 if b else 0`. */
  function Flag(b: bool): real
  {
    if b then 1.0 else 0.0
  }

  // ---------------------------------------------------------------------------
  // The feature dictionary

  /** The raw reading under its column names, plus the default encodings. */
  function RawData(w: WeatherInput, encoders: set<string>): (data: map<string, real>)
    ensures data.Keys == RAW_KEYS + EncodedKeys(encoders)
    ensures forall k :: k in EncodedKeys(encoders) ==> data[k] == 0.0
    ensures data[DISTANCE_KM] == w.distanceKm
    ensures data[MAX_24HR_RAINFALL_MM] == w.max24hrRainfallMm
    ensures data[TOTAL_STORM_RAINFALL_MM] == w.totalStormRainfallMm
    ensures data[MIN_PRESSURE_HPA] == w.minPressureHpa
    ensures data[MAX_SUSTAINED_WIND_KPH] == w.maxSustainedWindKph
    ensures data[DURATION_IN_PAR_HOURS] == w.durationInParHours
  {
    var raw := map[
      DISTANCE_KM := w.distanceKm,
      MAX_24HR_RAINFALL_MM := w.max24hrRainfallMm,
      TOTAL_STORM_RAINFALL_MM := w.totalStormRainfallMm,
      MIN_PRESSURE_HPA := w.minPressureHpa,
      MAX_SUSTAINED_WIND_KPH := w.maxSustainedWindKph,
      DURATION_IN_PAR_HOURS := w.durationInParHours];
    var withName := if "Typhoon Name" in encoders then raw["Typhoon Name_encoded" := 0.0] else raw;
    var withRegion := if "Region" in encoders then withName["Region_encoded" := 0.0] else withName;
    var withProvince := if "Province" in encoders then withRegion["Province_encoded" := 0.0] else withRegion;
    if "City/Municipality" in encoders then withProvince["City/Municipality_encoded" := 0.0] else withProvince
  }

  /** The engineered features; the two ratio scores need distance + 1 and duration + 1 nonzero. */
  function DerivedFeatures(w: WeatherInput): (data: map<string, real>)
    requires w.distanceKm + 1.0 != 0.0 && w.durationInParHours + 1.0 != 0.0
    ensures data.Keys == DERIVED_KEYS
  {
    var wind := w.maxSustainedWindKph;
    var rainfall := w.totalStormRainfallMm;
    var pressure := w.minPressureHpa;
    var distance := w.distanceKm;
    var duration := w.durationInParHours;
    map[
      WIND_INTENSITY_CATEGORY := WindIntensityCategory(wind) as real,
      IS_SUPER_TYPHOON := Flag(wind > 184.0),
      IS_TYPHOON_PLUS := Flag(wind > 117.0),
      RAINFALL_INTENSITY := RainfallIntensity(rainfall) as real,
      EXTREME_RAINFALL := Flag(rainfall > 300.0),
      PRESSURE_INTENSITY := 1013.0 - pressure,
      VERY_LOW_PRESSURE := Flag(pressure < 950.0),
      IS_DIRECT_HIT := Flag(distance < 10.0),
      IS_NEARBY := Flag(distance < 50.0),
      DISTANCE_CATEGORY := DistanceCategory(distance) as real,
      LONG_DURATION := Flag(duration > 100.0),
      VERY_LONG_DURATION := Flag(duration > 150.0),
      WIND_IMPACT_SCORE := wind / (distance + 1.0),
      RAINFALL_RATE := rainfall / (duration + 1.0),
      COMBINED_THREAT_SCORE := wind / 200.0 + rainfall / 400.0]
  }

  /** The dictionary `data` as it stands before missing features are added; a ratio score
      whose denominator is zero raises ZeroDivisionError instead. */
  function EngineeredData(w: WeatherInput, encoders: set<string>): (r: Result<map<string, real>, PreprocessError>)
    ensures r.Err? <==> w.distanceKm == -1.0 || w.durationInParHours == -1.0
    ensures r.Err? ==> r.error == ZeroDivision
    ensures r.Ok? ==> r.value.Keys == RAW_KEYS + EncodedKeys(encoders) + DERIVED_KEYS
  {
    if w.distanceKm + 1.0 == 0.0 || w.durationInParHours + 1.0 == 0.0 then Err(ZeroDivision)
    else Ok(RawData(w, encoders) + DerivedFeatures(w))
  }

  /** A non-negative value over a positive denominator, as the two ratio scores are. */
  lemma QuotientNonNegative(x: real, y: real)
    requires x >= 0.0 && y > 0.0
    ensures x / y >= 0.0
  {
    assert (x / y) * y == x;
  }

  /** What the engineered features promise: every bin in 0..4, every flag 0 or 1 and set
      exactly above or below its own threshold, the flags that imply one another, the
      pressure deficit and the sign of the ratio scores. */
  lemma DerivedFeatureProperties(w: WeatherInput)
    requires w.distanceKm + 1.0 != 0.0 && w.durationInParHours + 1.0 != 0.0
    ensures var d := DerivedFeatures(w);
      forall k :: k in FLAG_KEYS ==> d[k] == 0.0 || d[k] == 1.0
    ensures var d := DerivedFeatures(w);
      && 0.0 <= d[WIND_INTENSITY_CATEGORY] <= 4.0
      && (d[IS_SUPER_TYPHOON] == 1.0 <==> w.maxSustainedWindKph > 184.0)
      && (d[IS_TYPHOON_PLUS] == 1.0 <==> w.maxSustainedWindKph > 117.0)
      && (d[IS_SUPER_TYPHOON] == 1.0 ==> d[IS_TYPHOON_PLUS] == 1.0 && d[WIND_INTENSITY_CATEGORY] == 4.0)
      && 0.0 <= d[RAINFALL_INTENSITY] <= 4.0
      && (d[EXTREME_RAINFALL] == 1.0 <==> w.totalStormRainfallMm > 300.0)
      && (d[EXTREME_RAINFALL] == 1.0 ==> d[RAINFALL_INTENSITY] >= 3.0)
      && 0.0 <= d[DISTANCE_CATEGORY] <= 4.0
      && (d[IS_DIRECT_HIT] == 1.0 <==> w.distanceKm < 10.0)
      && (d[IS_NEARBY] == 1.0 <==> w.distanceKm < 50.0)
      && (d[IS_DIRECT_HIT] == 1.0 ==> d[IS_NEARBY] == 1.0 && d[DISTANCE_CATEGORY] == 0.0)
      && (d[LONG_DURATION] == 1.0 <==> w.durationInParHours > 100.0)
      && (d[VERY_LONG_DURATION] == 1.0 <==> w.durationInParHours > 150.0)
      && (d[VERY_LONG_DURATION] == 1.0 ==> d[LONG_DURATION] == 1.0)
      && d[PRESSURE_INTENSITY] == 1013.0 - w.minPressureHpa
      && (d[VERY_LOW_PRESSURE] == 1.0 <==> w.minPressureHpa < 950.0)
    ensures w.distanceKm >= 0.0 && w.maxSustainedWindKph >= 0.0 ==> DerivedFeatures(w)[WIND_IMPACT_SCORE] >= 0.0
    ensures w.durationInParHours >= 0.0 && w.totalStormRainfallMm >= 0.0 ==> DerivedFeatures(w)[RAINFALL_RATE] >= 0.0
  {
    var d := DerivedFeatures(w);
    var wind, rainfall := w.maxSustainedWindKph, w.totalStormRainfallMm;
    var distance, duration := w.distanceKm, w.durationInParHours;
    if distance >= 0.0 && wind >= 0.0 {
      assert d[WIND_IMPACT_SCORE] == wind / (distance + 1.0);
      assert distance + 1.0 > 0.0;
      QuotientNonNegative(wind, distance + 1.0);
    }
    if duration >= 0.0 && rainfall >= 0.0 {
      assert d[RAINFALL_RATE] == rainfall / (duration + 1.0);
      assert duration + 1.0 > 0.0;
      QuotientNonNegative(rainfall, duration + 1.0);
    }
  }

  /** The three bins of the dictionary are the bin functions of the readings, and the
      three scores are the wind over the distance, the rainfall over the duration (each
      plus one) and the weighted sum of wind and rainfall. */
  lemma DerivedFeatureValues(w: WeatherInput)
    requires w.distanceKm + 1.0 != 0.0 && w.durationInParHours + 1.0 != 0.0
    ensures var d := DerivedFeatures(w);
      && d[WIND_INTENSITY_CATEGORY] == WindIntensityCategory(w.maxSustainedWindKph) as real
      && d[RAINFALL_INTENSITY] == RainfallIntensity(w.totalStormRainfallMm) as real
      && d[DISTANCE_CATEGORY] == DistanceCategory(w.distanceKm) as real
    ensures var d := DerivedFeatures(w);
      && d[WIND_IMPACT_SCORE] == w.maxSustainedWindKph / (w.distanceKm + 1.0)
      && d[RAINFALL_RATE] == w.totalStormRainfallMm / (w.durationInParHours + 1.0)
      && d[COMBINED_THREAT_SCORE] == w.maxSustainedWindKph / 200.0 + w.totalStormRainfallMm / 400.0
  {
  }

  /** The binned features of the dictionary never decrease as their reading grows: wind
      for the wind category, total rainfall for the rainfall intensity and distance for
      the distance category. */
  lemma DerivedBinsMonotone(w1: WeatherInput, w2: WeatherInput)
    requires w1.distanceKm + 1.0 != 0.0 && w1.durationInParHours + 1.0 != 0.0
    requires w2.distanceKm + 1.0 != 0.0 && w2.durationInParHours + 1.0 != 0.0
    ensures w1.maxSustainedWindKph <= w2.maxSustainedWindKph ==>
      DerivedFeatures(w1)[WIND_INTENSITY_CATEGORY] <= DerivedFeatures(w2)[WIND_INTENSITY_CATEGORY]
    ensures w1.totalStormRainfallMm <= w2.totalStormRainfallMm ==>
      DerivedFeatures(w1)[RAINFALL_INTENSITY] <= DerivedFeatures(w2)[RAINFALL_INTENSITY]
    ensures w1.distanceKm <= w2.distanceKm ==>
      DerivedFeatures(w1)[DISTANCE_CATEGORY] <= DerivedFeatures(w2)[DISTANCE_CATEGORY]
  {
    DerivedFeatureValues(w1);
    DerivedFeatureValues(w2);
    if w1.maxSustainedWindKph <= w2.maxSustainedWindKph {
      WindIntensityMonotone(w1.maxSustainedWindKph, w2.maxSustainedWindKph);
    }
    if w1.totalStormRainfallMm <= w2.totalStormRainfallMm {
      RainfallIntensityMonotone(w1.totalStormRainfallMm, w2.totalStormRainfallMm);
    }
    if w1.distanceKm <= w2.distanceKm {
      DistanceCategoryMonotone(w1.distanceKm, w2.distanceKm);
    }
  }

  /** The dictionary holds the engineered features under their names... */
  lemma EngineeredDerivedEntries(w: WeatherInput, encoders: set<string>)
    requires w.distanceKm != -1.0 && w.durationInParHours != -1.0
    ensures forall k :: k in DERIVED_KEYS ==> EngineeredData(w, encoders).value[k] == DerivedFeatures(w)[k]
  {
  }

  /** No engineered feature shadows a raw column or an encoding. */
  lemma KeySetsDisjoint(encoders: set<string>)
    ensures (RAW_KEYS + EncodedKeys(encoders)) !! DERIVED_KEYS
  {
  }

  /** ... and the raw reading and default encodings under their column names. */
  lemma EngineeredRawEntry(w: WeatherInput, encoders: set<string>, k: string)
    requires w.distanceKm != -1.0 && w.durationInParHours != -1.0
    requires k in RAW_KEYS + EncodedKeys(encoders)
    ensures k in EngineeredData(w, encoders).value
    ensures EngineeredData(w, encoders).value[k] == RawData(w, encoders)[k]
  {
    KeySetsDisjoint(encoders);
    assert k !in DERIVED_KEYS;
  }

  // ---------------------------------------------------------------------------
  // Feature-vector assembly

  /** `for feature in feature_names: if feature not in data: data[feature] = 0` */
  method AddMissingFeatures(data: map<string, real>, featureNames: seq<string>)
    returns (filled: map<string, real>)
    ensures filled.Keys == data.Keys + set i | 0 <= i < |featureNames| :: featureNames[i]
    ensures forall k :: k in data ==> filled[k] == data[k]
    ensures forall k :: k in filled && k !in data ==> filled[k] == 0.0
  {
    filled := data;
    for n := 0 to |featureNames|
      invariant filled.Keys == data.Keys + set i | 0 <= i < n :: featureNames[i]
      invariant forall k :: k in data ==> filled[k] == data[k]
      invariant forall k :: k in filled && k !in data ==> filled[k] == 0.0
    {
      if featureNames[n] !in filled {
        filled := filled[featureNames[n] := 0.0];
      }
    }
  }

  /** `DataFrame([data]).reindex(columns=feature_names, fill_value=0)`: one value per
      name, in the order of the names. */
  method Reindex(data: map<string, real>, featureNames: seq<string>) returns (row: seq<real>)
    ensures |row| == |featureNames|
    ensures forall i :: 0 <= i < |featureNames| ==> row[i] == GetOrZero(data, featureNames[i])
  {
    row := [];
    for n := 0 to |featureNames|
      invariant |row| == n
      invariant forall i :: 0 <= i < n ==> row[i] == GetOrZero(data, featureNames[i])
    {
      var name := featureNames[n];
      row := row + [GetOrZero(data, name)];
    }
  }

  /** The feature vector preprocess_input hands to the scaler: an error when the
      components are not loaded or a ratio score divides by zero, otherwise the engineered
      value of each expected feature name, in the order of the names, or 0 for a name
      nothing was computed for. */
  function FeatureVector(c: ModelComponents, w: WeatherInput): (r: Result<seq<real>, PreprocessError>)
    ensures !ComponentsLoaded(c) ==> r == Err(ComponentsNotLoaded)
    ensures ComponentsLoaded(c) && (w.distanceKm == -1.0 || w.durationInParHours == -1.0) ==>
              r == Err(ZeroDivision)
    ensures r.Ok? <==> ComponentsLoaded(c) && w.distanceKm != -1.0 && w.durationInParHours != -1.0
    ensures r.Ok? ==>
      var names := c.featureNames.value;
      var data := EngineeredData(w, c.encoders.value).value;
      && |r.value| == |names|
      && forall i :: 0 <= i < |names| ==> r.value[i] == GetOrZero(data, names[i])
  {
    if !ComponentsLoaded(c) then Err(ComponentsNotLoaded)
    else
      var names := c.featureNames.value;
      match EngineeredData(w, c.encoders.value)
      case Err(e) => Err(e)
      case Ok(data) => Ok(seq(|names|, i requires 0 <= i < |names| => GetOrZero(data, names[i])))
  }

  /** preprocess_input up to scaling: fails when the components are not loaded or a ratio
      score divides by zero; otherwise one entry per expected feature name, in that order,
      each the engineered value of that name or 0 when nothing was computed for it. */
  method PreprocessInput(c: ModelComponents, w: WeatherInput) returns (r: Result<seq<real>, PreprocessError>)
    ensures !ComponentsLoaded(c) ==> r == Err(ComponentsNotLoaded)
    ensures ComponentsLoaded(c) && (w.distanceKm == -1.0 || w.durationInParHours == -1.0) ==>
              r == Err(ZeroDivision)
    ensures r.Ok? <==> ComponentsLoaded(c) && w.distanceKm != -1.0 && w.durationInParHours != -1.0
    ensures r.Ok? ==>
      var names := c.featureNames.value;
      var data := EngineeredData(w, c.encoders.value).value;
      && |r.value| == |names|
      && forall i :: 0 <= i < |names| ==> r.value[i] == GetOrZero(data, names[i])
    ensures r == FeatureVector(c, w)
  {
    if !ComponentsLoaded(c) {
      return Err(ComponentsNotLoaded);
    }
    var names := c.featureNames.value;
    var engineered := EngineeredData(w, c.encoders.value);
    if engineered.Err? {
      return Err(engineered.error);
    }
    var filled := AddMissingFeatures(engineered.value, names);
    var row := Reindex(filled, names);
    ghost var expected := FeatureVector(c, w).value;
    assert |row| == |expected|;
    forall i | 0 <= i < |names|
      ensures row[i] == expected[i]
    {
      assert GetOrZero(filled, names[i]) == GetOrZero(engineered.value, names[i]);
    }
    assert row == expected;
    return Ok(row);
  }
}
