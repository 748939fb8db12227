# Typhoon impact services: a Dafny model of the rule-based backend

The repository presents itself as a K-Prototypes clustering system for post-tropical-cyclone
impact profiling in the Philippines (frontend/app/page.tsx:85, frontend/app/thesis/page.tsx:92).
The backend code does not implement K-Prototypes: backend/main.py only calls a pre-fitted
scikit-learn KMeans, and its silhouette score is a random draw. This model follows the code.
It covers the deterministic layer that surrounds the fitted models in the two backend services:

- **Casualty service (backend/app.py).**
  - `preprocess_input` turns a weather reading into a dictionary of named features. These are
    threshold bins, 0/1 flags, a pressure deficit and ratio scores. The wind cut-offs 61/88/117/184
    km/h are the five-level PAGASA tropical-cyclone scale. The function then adds every feature
    name the model expects with 0 and lays the values out in that order.
  - `interpret_predictions` turns the model's outputs into a dictionary keyed by target name. It
    sets a four-level risk level, gives a message to each known target and picks a fixed list of
    recommendations.
  - The `/api/predict` handler maps every failure to an HTTP status.
- **Demonstration service (backend/main.py).**
  - `predict_impact` turns a single regressor output into a Low/Medium/High risk level with a
    fixed confidence, a linear damage cost and a truncated casualty count.
  - `cluster_analysis` shapes JSON records into a six-column feature matrix and the fitted
    centres into six-key dictionaries. It rejects an empty batch.

Modules (one per component, all files verified together):

| file | module | models |
|---|---|---|
| results.dfy | `Results` | Option and Result, for Python's exceptions |
| dicts.dfy | `Dicts` | dictionaries built by zipping a key list with a value list |
| preprocess.dfy | `Preprocess` | `preprocess_input` |
| interpret.dfy | `Interpret` | `interpret_predictions` |
| casualty_api.dfy | `CasualtyApi` | the error mapping of the casualty `/api/predict` handler |
| impact.dfy | `Impact` | `predict_impact` |
| cluster.dfy | `Cluster` | `cluster_analysis` |

Modelling choices:

- Python floats are Dafny `real`. NaN and infinities are not modelled.
- `int(x)` truncates toward zero and is written out with `Floor`.
- `hash(province) % 100` uses a positive divisor, so Python's floor remainder equals Dafny's
  Euclidean `%`.
- Opaque calls become parameters:
  - the scaler together with the fitted multi-output model: `predict` of `PredictCasualties`;
  - the RandomForest regressor: `model` of `PredictImpact`;
  - KMeans `predict` (`predict` of `ClusterAnalysis`) and `cluster_centers_`;
  - Python's salted `hash` of the province: `provinceHash`;
  - `np.random.random()`: `random`;
  - Python's `float()` on a string: `parseFloat`.

  The three fitted-model calls return `None` when they raise, for example on a feature-count
  mismatch. The handlers turn that into a 400 (app.py) or a 500 (main.py), as they do for any
  exception. A model whose output row is too short is not a failing call: the IndexError comes
  from `predictions[0][i]` in interpret_predictions (app.py:182), and only when some target name
  is expected. With an empty target list the handler answers normally, with no predictions and
  a LOW risk level. The model states this as `PredictionTooShort`, which is raised exactly when
  the output row is shorter than the target names.
- A Python float division by zero raises ZeroDivisionError. It is modelled as an error result.
  A distance or duration of exactly −1 makes a ratio score divide by zero.
- The status codes are modelled as the code produces them. In app.py the readiness guard raises
  a 500 (line 104), but the handler catches it and re-raises it as a 400 (lines 300-301). In
  main.py the 400 for an empty batch (line 135) is caught and re-raised as a 500 (lines 173-174).
- The code does not reject negative inputs. The model has no such precondition and no such
  error.

## Model

| member | source | states |
|---|---|---|
| Dicts.ZipToMap | backend/app.py:182 | the dictionary built from parallel lists has exactly the keys up to the shorter list's length, and each key holds the value of its last occurrence |
| Dicts.GetOrZero | backend/app.py:185-186 | `dict.get(name, 0)`: the stored value of a present name, 0 for an absent one; also the fill value of the reindex at app.py:170-172 (stated through `Preprocess.Reindex` and `Interpret.InterpretPredictions`) |
| Dicts.ZipToMapDistinct | backend/main.py:161 | when the paired keys are distinct, every key holds the value at its own position |
| Preprocess.WindIntensityCategory | backend/app.py:134 | the wind category is in 0..4 |
| Preprocess.RainfallIntensity | backend/app.py:140 | the rainfall intensity is in 0..4 |
| Preprocess.DistanceCategory | backend/app.py:152 | the distance category is in 0..4 |
| Preprocess.ThresholdsExceededMonotone | backend/app.py:134-152 | the number of cut-offs a value exceeds never decreases as the value grows |
| Preprocess.WindIntensityMonotone | backend/app.py:133-134 | the wind category counts the PAGASA cut-offs 61/88/117/184 that the wind exceeds, and never decreases as the wind grows |
| Preprocess.RainfallIntensityMonotone | backend/app.py:139-140 | the rainfall intensity counts the cut-offs 50/100/200/400 that the rainfall exceeds, and never decreases as the rainfall grows |
| Preprocess.DistanceCategoryMonotone | backend/app.py:149-152 | the distance category counts the cut-offs 10/25/50/100 that the distance exceeds, and never decreases as the distance grows |
| Preprocess.RawData | backend/app.py:107-129 | the raw reading sits under its six column names; each encoded column with a saved encoder adds a `_encoded` key holding 0 |
| Preprocess.ComponentsLoaded | backend/app.py:103-104 | `all([scaler, feature_names, encoders])`: the scaler is set and the feature list and encoder dictionary are present and non-empty, since empty ones are falsy; `Preprocess.FeatureVector` states that failing it is the first error |
| Preprocess.DerivedFeatures | backend/app.py:131-162 | exactly the fifteen engineered feature names are produced |
| Preprocess.DerivedFeatureValues | backend/app.py:133-162 | the wind category, rainfall intensity and distance category entries are the bin functions of wind, total rainfall and distance; wind_impact_score = wind / (distance + 1), rainfall_rate = rainfall / (duration + 1), combined_threat_score = wind / 200 + rainfall / 400 |
| Preprocess.DerivedBinsMonotone | backend/app.py:134-152 | the wind category, rainfall intensity and distance category entries of the dictionary never decrease as their reading grows |
| Preprocess.DerivedFeatureProperties | backend/app.py:133-162 | every 0/1 flag is 0 or 1; bins in 0..4; is_super_typhoon = 1 iff wind > 184; is_typhoon_plus = 1 iff wind > 117; is_direct_hit = 1 iff distance < 10; is_nearby = 1 iff distance < 50; long_duration = 1 iff duration > 100; very_long_duration = 1 iff duration > 150; is_super_typhoon = 1 implies is_typhoon_plus = 1 and category 4; extreme_rainfall = 1 iff rainfall > 300, which implies intensity ≥ 3; a direct hit implies nearby and distance category 0; very long implies long duration; pressure_intensity = 1013 − pressure; very_low_pressure = 1 iff pressure < 950; the ratio scores are ≥ 0 for non-negative inputs |
| Preprocess.EngineeredData | backend/app.py:131-162 | the dictionary fails with ZeroDivisionError exactly when distance or duration is −1; otherwise its keys are the raw columns, the encodings and the engineered features |
| Preprocess.KeySetsDisjoint | backend/app.py:107-162 | no engineered feature name collides with a raw column or an encoding |
| Preprocess.EngineeredDerivedEntries | backend/app.py:131-162 | the dictionary holds each engineered feature's value under its name |
| Preprocess.EngineeredRawEntry | backend/app.py:107-129 | the raw reading and the default encodings are copied into the dictionary unchanged |
| Preprocess.AddMissingFeatures | backend/app.py:164-168 | after the loop every expected name is a key; existing values are unchanged and the added names hold 0 |
| Preprocess.Reindex | backend/app.py:170-172 | the row has one entry per expected name, in order: the name's value, or 0 when the name is absent |
| Preprocess.FeatureVector | backend/app.py:101-172 | the feature row fails when the components are not loaded, which includes an empty feature list or encoder set, and with ZeroDivisionError exactly when distance or duration is −1; otherwise it has one entry per expected name, in order, each the engineered value of that name or 0 |
| Preprocess.PreprocessInput | backend/app.py:101-177 | the step-by-step code (add missing names, then reindex) returns exactly the feature row above;  fails when the components are not loaded, which includes an empty feature list or encoder set, or when a ratio divides by zero; otherwise it returns one entry per expected name, in order, each the engineered value of that name or 0 |
| Interpret.TotalCasualties | backend/app.py:185 | Dead + Injured/Ill + Missing, each 0 when absent; its effect on the level is stated by `Interpret.RiskLevelMonotone` |
| Interpret.AffectedFamilies | backend/app.py:186 | Families, 0 when absent; its effect on the level is stated by `Interpret.RiskLevelMonotone` |
| Interpret.RiskLevelOf | backend/app.py:188-196 | the four-tier classifier; `Interpret.RiskLevelCountsTiers` states that it equals the number of tiers exceeded and `Interpret.RiskLevelMonotone` that it never decreases |
| Interpret.TiersMetMonotone | backend/app.py:189-196 | the number of risk tiers met never decreases as casualties or families grow |
| Interpret.RiskLevelCountsTiers | backend/app.py:188-196 | the first matching tier from the top equals the number of (casualty, family) tiers exceeded, because the thresholds 5/20/50 and 1000/5000/10000 increase |
| Interpret.RiskLevelMonotone | backend/app.py:185-196 | the risk level never decreases as the casualty total or the affected families grow |
| Interpret.MessageFor | backend/app.py:200-208 | a target gets a message iff it is Dead, Injured/Ill, Missing or Families |
| Interpret.InterpretTargets | backend/app.py:198-208 | the interpretation has exactly the known targets that were predicted, each with the message carrying its predicted value |
| Interpret.Recommendations | backend/app.py:210-237 | EXTREME/HIGH/MODERATE/LOW give 5/4/3/2 recommendations, one more per severity step |
| Interpret.InterpretPredictions | backend/app.py:179-244 | IndexError iff the output row is shorter than the target names; otherwise the predictions are the target names zipped with the outputs (each name holding its last output), the risk level comes from Dead + Injured/Ill + Missing and from Families, with absent targets counted as 0, each predicted known target gets its own message carrying its value, and the recommendations are exactly the fixed list of the level |
| CasualtyApi.PredictCasualties | backend/app.py:282-301 | no model gives 500; every other failure gives 400, each with its cause in the order preprocessing, model, missing target names, short output; success iff a model is loaded, the feature row builds, the model returns, target names are set and the output covers them; on success the predictions are the target names zipped with the model's output for the feature row, the risk level and recommendations follow from them, and each predicted known target gets exactly its own message |
| Impact.ProvinceCode | backend/main.py:99 | the province code is the residue of the hash modulo 100, in [0, 100) |
| Impact.FeatureRow | backend/main.py:94-101 | the regressor receives wind speed, 24-hour rainfall, duration, population, the province code in [0, 100) and the typhoon name's length, in that order |
| Impact.RiskLevelOf | backend/main.py:107-115 | the Low/Medium/High split; `Impact.RiskLevelBands` gives the band of each level and `Impact.RiskLevelMonotone` its order |
| Impact.Confidence | backend/main.py:107-115 | the confidence of every risk level lies in [0, 1] |
| Impact.RiskLevelBands | backend/main.py:107-115 | Low iff prediction < 10, Medium iff 10 ≤ prediction < 50, High iff prediction ≥ 50 |
| Impact.RiskLevelMonotone | backend/main.py:107-115 | the risk level never decreases as the prediction grows |
| Impact.DamageCost | backend/main.py:118 | the damage cost is non-negative for a non-negative prediction and wind speed |
| Impact.DamageCostMonotone | backend/main.py:118 | the damage cost never decreases as the prediction or the wind speed grows |
| Impact.TruncateTowardZero | backend/main.py:121 | `int(x)` is the integer between 0 and x within distance 1 of x: floor for x ≥ 0, ceiling for x < 0 |
| Impact.PredictImpact | backend/main.py:89-128 | a 500 exactly when the regressor raises; otherwise confidence in [0, 1], and risk level, confidence, casualties and damage cost all follow from the single regressor output on the feature row; casualties ≥ 0 and damage ≥ 0 for non-negative inputs |
| Cluster.GetOrZero | backend/main.py:141-145 | `typhoon.get(key, 0)`; `Cluster.FeatureRowColumns` and `Cluster.MissingKeysDefault` state the row it builds |
| Cluster.NameLength | backend/main.py:146 | an absent name has length 0; a numeric name raises TypeError; a string name gives its length |
| Cluster.FeatureRow | backend/main.py:140-147 | a record yields a six-column row unless its name is numeric |
| Cluster.FeatureRowColumns | backend/main.py:140-147 | the columns are wind_speed, rainfall, duration, casualties and damage_cost, each 0 when absent, then the name's length |
| Cluster.MissingKeysDefault | backend/main.py:141-146 | a record without any of the six keys becomes a row of zeros |
| Cluster.OtherKeysIgnored | backend/main.py:140-147 | adding or changing any other key does not change the row |
| Cluster.Rows | backend/main.py:138-148 | the feature list has one row per record |
| Cluster.BuildFeatureRows | backend/main.py:138-148 | the loop succeeds iff every record's row does, and then yields one row per record in input order; otherwise it raises the TypeError of a numeric name |
| Cluster.ToMatrix | backend/main.py:150-153 | the matrix exists iff every cell converts to a float, and then it has the rows' shape and the converted cells |
| Cluster.NumericRecordsPassThrough | backend/main.py:138-153 | a batch of numeric features with string names reaches the model as one six-column row per record, in order: the five numbers (0 when absent) and the name's length |
| Cluster.CenterNamesDistinct | backend/main.py:158 | the six centre column names are distinct |
| Cluster.CenterNamesPaired | backend/main.py:158-161 | each paired centre column name holds the centre value at its position |
| Cluster.CenterKeysComplete | backend/main.py:158-161 | a centre with at least six values gets exactly the six column names as keys; a shorter one gets only the names zip pairs |
| Cluster.CenterDict | backend/main.py:161 | each of the first min(6, centre length) names is a key of the centre dictionary and holds the value at its position |
| Cluster.BuildCenters | backend/main.py:157-162 | one centre dictionary per fitted centre, in order |
| Cluster.SilhouetteScore | backend/main.py:165 | the score lies in [0.75, 0.95) for a draw in [0, 1) |
| Cluster.ClusterAnalysis | backend/main.py:130-174 | every failure is a 500, including the empty batch; success iff the batch is non-empty, every row builds and converts and the model returns; the assignments are the model's labels of the feature matrix, the centres are converted one by one in order, and the score is `SilhouetteScore` of the random draw, so it lies in [0.75, 0.95) |

## Left out

- Python's `model.predict`, `scaler.transform`, `KMeans` and `RandomForestRegressor` are opaque
  fitted scikit-learn objects. Their results, or their failure, are parameters. Labels in
  [0, 5) and centres of six values are therefore not guaranteed by the model.
- The K-Prototypes algorithm, a real silhouette computation and input validation are described
  on the site's pages but are not in the backend code, so they are not modelled.
- Model loading, directory scanning and saving models (`load_model_components`,
  `load_or_create_models`) are file I/O and global state. They are represented only by the
  `ModelComponents` value they leave behind.
- FastAPI setup, CORS, routing, pydantic parsing, static files and the model-status, reload,
  sample-input, root and health endpoints are HTTP plumbing.
- Interpret.MessageFor: the f-string rendering of messages (`{value:.0f}`) is not modelled. A
  message records only its kind and value.
- Cluster.FeatureRow: JSON values other than numbers and strings (null, booleans, lists,
  objects) are not modelled. A Dafny string is a sequence of Unicode scalar values, so its
  length is Python's code-point count, but a name holding a lone surrogate (which JSON can
  encode) cannot be represented.
- Impact.FeatureRow: the same holds for the typhoon name: its length is the code-point count,
  and names with a lone surrogate are not representable.
- Impact.PredictImpact: the NaN and infinite regressor outputs, for which `int()` raises, are
  not modelled, because floats are modelled as reals.
- Preprocess.PreprocessInput: the result is the row before `scaler.transform`. Scaling is
  folded into the opaque model.
- The frontend pages and their `fetch` calls are UI and transport.
