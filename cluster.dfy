/** Cluster request shaping of the demonstration service (backend/main.py, cluster_analysis):
    each JSON record becomes a six-column feature row, the fitted clustering model labels
    the rows, its centres become six-key dictionaries, and the quality score is drawn at
    random. Every exception, the 400 for an empty batch included, leaves as a 500. */
module Cluster {
  import opened Results
  import Dicts

  /** A JSON value of a record; only numbers and strings are modelled. */
  datatype Json = Num(n: real) | Str(s: string)

  type Record = map<string, Json>

  const NUMERIC_COLUMNS: seq<string> := ["wind_speed", "rainfall", "duration", "casualties", "damage_cost"]

  /** The column names of a centre, in the order of the feature row. */
  const CENTER_FEATURE_NAMES: seq<string> :=
    ["wind_speed", "rainfall", "duration", "casualties", "damage_cost", "name_length"]

  datatype ClusterError =
    | NoTyphoonData       // the empty batch
    | NameWithoutLength   // len() of a numeric name raises TypeError
    | NonNumericFeature   // the model cannot convert a string feature to a float
    | ModelFailed         // the fitted model's predict raised on the matrix

  datatype HttpError = HttpError(status: int, cause: ClusterError)

  datatype ClusterResponse = ClusterResponse(
    clusterAssignments: seq<int>,
    clusterCenters: seq<map<string, real>>,
    silhouetteScore: real)

  /** `typhoon.get(key, 0)` */
  function GetOrZero(record: Record, key: string): Json
  {
    if key in record then record[key] else Num(0.0)
  }

  /** `len(typhoon.get('name', ''))` */
  function NameLength(record: Record): (r: Result<int, ClusterError>)
    ensures "name" !in record ==> r == Ok(0)
    ensures "name" in record && record["name"].Str? ==> r == Ok(|record["name"].s|)
    ensures r.Ok? ==> r.value >= 0
    ensures r.Err? <==> "name" in record && record["name"].Num?
  {
    if "name" !in record then Ok(0)
    else match record["name"]
      case Str(s) => Ok(|s|)
      case Num(_) => Err(NameWithoutLength)
  }

  /** The row appended for one record: five looked-up columns and the name's length. */
  function FeatureRow(record: Record): (r: Result<seq<Json>, ClusterError>)
    ensures r.Ok? <==> NameLength(record).Ok?
    ensures r.Ok? ==> |r.value| == 6
  {
    match NameLength(record)
    case Err(e) => Err(e)
    case Ok(nameLength) => Ok([GetOrZero(record, "wind_speed"), GetOrZero(record, "rainfall"), GetOrZero(record, "duration"),
        GetOrZero(record, "casualties"), GetOrZero(record, "damage_cost"), Num(nameLength as real)])
  }

  /** The row's columns are the record's values under the five feature keys, in order,
      then the name's length. */
  lemma FeatureRowColumns(record: Record)
    requires FeatureRow(record).Ok?
    ensures forall j :: 0 <= j < 5 ==> FeatureRow(record).value[j] == GetOrZero(record, NUMERIC_COLUMNS[j])
    ensures FeatureRow(record).value[5] == Num(NameLength(record).value as real)
  {
  }

  /** A record without any of the six keys becomes a row of zeros. */
  lemma MissingKeysDefault(record: Record)
    requires forall k :: k in record ==> k !in NUMERIC_COLUMNS && k != "name"
    ensures FeatureRow(record) == Ok([Num(0.0), Num(0.0), Num(0.0), Num(0.0), Num(0.0), Num(0.0)])
  {
  }

  /** Keys other than the six are ignored. */
  lemma OtherKeysIgnored(record: Record, key: string, value: Json)
    requires key !in NUMERIC_COLUMNS && key != "name"
    ensures FeatureRow(record[key := value]) == FeatureRow(record)
  {
  }

  predicate AllRowsOk(records: seq<Record>)
  {
    forall i :: 0 <= i < |records| ==> FeatureRow(records[i]).Ok?
  }

  /** `features_list`: one row per record, in the records' order. */
  function Rows(records: seq<Record>): (rows: seq<seq<Json>>)
    requires AllRowsOk(records)
    ensures |rows| == |records|
  {
    seq(|records|, i requires 0 <= i < |records| => FeatureRow(records[i]).value)
  }

  /** The loop that builds `features_list`; the first record with a numeric name raises. */
  method BuildFeatureRows(records: seq<Record>) returns (r: Result<seq<seq<Json>>, ClusterError>)
    ensures r.Ok? <==> AllRowsOk(records)
    ensures r.Ok? ==> r.value == Rows(records)
    ensures r.Err? ==> r.error == NameWithoutLength
  {
    var rows: seq<seq<Json>> := [];
    for n := 0 to |records|
      invariant |rows| == n
      invariant forall i :: 0 <= i < n ==> FeatureRow(records[i]).Ok? && rows[i] == FeatureRow(records[i]).value
    {
      var row := FeatureRow(records[n]);
      if row.Err? {
        return Err(row.error);
      }
      rows := rows + [row.value];
    }
    return Ok(rows);
  }

  /** The float the clustering model reads for one cell: a number as it is, a string as
      `parseFloat` (Python's `float()` on a string) reads it. */
  function AsFloat(cell: Json, parseFloat: string -> Option<real>): Option<real>
  {
    match cell
    case Num(x) => Some(x)
    case Str(s) => parseFloat(s)
  }

  predicate Convertible(rows: seq<seq<Json>>, parseFloat: string -> Option<real>)
  {
    forall i, j :: 0 <= i < |rows| && 0 <= j < |rows[i]| ==> AsFloat(rows[i][j], parseFloat).Some?
  }

  /** `np.array(features_list)` as the clustering model sees it, or None when a cell
      does not convert to a float. */
  function ToMatrix(rows: seq<seq<Json>>, parseFloat: string -> Option<real>): (m: Option<seq<seq<real>>>)
    ensures m.Some? <==> Convertible(rows, parseFloat)
    ensures m.Some? ==> |m.value| == |rows|
    ensures m.Some? ==> forall i :: 0 <= i < |rows| ==> |m.value[i]| == |rows[i]|
    ensures m.Some? ==> forall i, j :: 0 <= i < |rows| && 0 <= j < |rows[i]| ==>
              Some(m.value[i][j]) == AsFloat(rows[i][j], parseFloat)
  {
    if Convertible(rows, parseFloat) then
      Some(seq(|rows|, i requires 0 <= i < |rows| =>
        seq(|rows[i]|, j requires 0 <= j < |rows[i]| => AsFloat(rows[i][j], parseFloat).value)))
    else None
  }

  /** A batch whose feature columns hold numbers and whose names are strings reaches the
      model unchanged, whatever string parsing would do: one row per record, in order,
      the five looked-up numbers (0 when absent) and the name's length. */
  lemma NumericRecordsPassThrough(records: seq<Record>, parseFloat: string -> Option<real>)
    requires forall i, k :: 0 <= i < |records| && k in records[i] && k != "name" ==> records[i][k].Num?
    requires forall i :: 0 <= i < |records| && "name" in records[i] ==> records[i]["name"].Str?
    ensures AllRowsOk(records)
    ensures ToMatrix(Rows(records), parseFloat).Some?
    ensures var m := ToMatrix(Rows(records), parseFloat).value;
      && |m| == |records|
      && forall i :: 0 <= i < |records| ==>
        && |m[i]| == 6
        && (forall j :: 0 <= j < 5 ==> m[i][j] == GetOrZero(records[i], NUMERIC_COLUMNS[j]).n)
        && m[i][5] == NameLength(records[i]).value as real
  {
  }

  lemma CenterNamesDistinct()
    ensures forall a, b :: 0 <= a < b < 6 ==> CENTER_FEATURE_NAMES[a] != CENTER_FEATURE_NAMES[b]
  {
  }

  /** The six centre column names are distinct, so zip keeps every paired value. */
  lemma CenterNamesPaired(center: seq<real>)
    ensures var d := Dicts.ZipToMap(CENTER_FEATURE_NAMES, center);
      forall j :: 0 <= j < 6 && j < |center| ==>
        CENTER_FEATURE_NAMES[j] in d && d[CENTER_FEATURE_NAMES[j]] == center[j]
  {
    CenterNamesDistinct();
    forall j | 0 <= j < 6 && j < |center|
      ensures CENTER_FEATURE_NAMES[j] in Dicts.ZipToMap(CENTER_FEATURE_NAMES, center)
      ensures Dicts.ZipToMap(CENTER_FEATURE_NAMES, center)[CENTER_FEATURE_NAMES[j]] == center[j]
    {
      Dicts.ZipToMapDistinct(CENTER_FEATURE_NAMES, center, j);
    }
  }

  /** `{name: float(value) for name, value in zip(feature_names, center)}`: each of the
      first min(6, |center|) names holds the value at its position. */
  function CenterDict(center: seq<real>): (d: map<string, real>)
    ensures forall j :: 0 <= j < 6 && j < |center| ==>
      CENTER_FEATURE_NAMES[j] in d && d[CENTER_FEATURE_NAMES[j]] == center[j]
  {
    CenterNamesPaired(center);
    Dicts.ZipToMap(CENTER_FEATURE_NAMES, center)
  }

  /** A centre of six or more values gets exactly the six column names as keys; zip
      drops the names beyond a shorter centre. */
  lemma CenterKeysComplete(center: seq<real>)
    ensures |center| >= 6 ==>
      CenterDict(center).Keys == {"wind_speed", "rainfall", "duration", "casualties", "damage_cost", "name_length"}
    ensures |center| < 6 ==> CenterDict(center).Keys == set j | 0 <= j < |center| :: CENTER_FEATURE_NAMES[j]
  {
    var six := CENTER_FEATURE_NAMES;
    if |center| >= 6 {
      assert Dicts.Min(6, |center|) == 6;
      assert (set j | 0 <= j < 6 :: six[j]) == {six[0], six[1], six[2], six[3], six[4], six[5]};
    } else {
      assert Dicts.Min(6, |center|) == |center|;
    }
  }

  /** The loop that builds `cluster_centers`: one dictionary per centre, in order. */
  method BuildCenters(centers: seq<seq<real>>) returns (dicts: seq<map<string, real>>)
    ensures |dicts| == |centers|
    ensures forall i :: 0 <= i < |centers| ==> dicts[i] == CenterDict(centers[i])
  {
    dicts := [];
    for n := 0 to |centers|
      invariant |dicts| == n
      invariant forall i :: 0 <= i < n ==> dicts[i] == CenterDict(centers[i])
    {
      var center := CenterDict(centers[n]);
      dicts := dicts + [center];
    }
  }

  /** The placeholder quality score `0.75 + random * 0.2`. */
  function SilhouetteScore(random: real): (score: real)
    ensures 0.0 <= random < 1.0 ==> 0.75 <= score < 0.95
  {
    0.75 + random * 0.2
  }

  /** cluster_analysis with the fitted model's `predict` (None when it raises) and
      `cluster_centers_`, Python's float parsing and the draw of `np.random.random()` as
      parameters. */
  method ClusterAnalysis(typhoonData: seq<Record>, predict: seq<seq<real>> -> Option<seq<int>>,
                         centers: seq<seq<real>>, parseFloat: string -> Option<real>, random: real)
    returns (r: Result<ClusterResponse, HttpError>)
    ensures r.Err? ==> r.error.status == 500
    ensures |typhoonData| == 0 ==> r == Err(HttpError(500, NoTyphoonData))
    ensures r.Ok? <==> |typhoonData| > 0 && AllRowsOk(typhoonData)
                       && ToMatrix(Rows(typhoonData), parseFloat).Some?
                       && predict(ToMatrix(Rows(typhoonData), parseFloat).value).Some?
    ensures r.Ok? ==>
      && r.value.clusterAssignments == predict(ToMatrix(Rows(typhoonData), parseFloat).value).value
      && |r.value.clusterCenters| == |centers|
      && (forall i :: 0 <= i < |centers| ==> r.value.clusterCenters[i] == CenterDict(centers[i]))
      && r.value.silhouetteScore == SilhouetteScore(random)
      && (0.0 <= random < 1.0 ==> 0.75 <= r.value.silhouetteScore < 0.95)
  {
    if |typhoonData| == 0 {
      return Err(HttpError(500, NoTyphoonData));
    }
    var rows := BuildFeatureRows(typhoonData);
    if rows.Err? {
      return Err(HttpError(500, rows.error));
    }
    var matrix := ToMatrix(rows.value, parseFloat);
    if matrix.None? {
      return Err(HttpError(500, NonNumericFeature));
    }
    var assignments := predict(matrix.value);
    if assignments.None? {
      return Err(HttpError(500, ModelFailed));
    }
    var centerDicts := BuildCenters(centers);
    var score := SilhouetteScore(random);
    return Ok(ClusterResponse(assignments.value, centerDicts, score));
  }
}
