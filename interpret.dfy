/** Risk interpretation of the casualty service (backend/app.py, interpret_predictions):
    the model's outputs become a dictionary keyed by target name, a four-level risk
    level, a message per known target and a fixed list of recommendations. */
module Interpret {
  import opened Results
  import Dicts

  const DEAD := "Dead"
  const INJURED_ILL := "Injured/Ill"
  const MISSING := "Missing"
  const FAMILIES := "Families"

  /** The targets that get a message in the interpretation. */
  const INTERPRETED_TARGETS: set<string> := {DEAD, INJURED_ILL, MISSING, FAMILIES}

  datatype RiskLevel = Low | Moderate | High | Extreme

  /** The position of a level on the scale, LOW = 0 up to EXTREME = 3. */
  function Severity(level: RiskLevel): nat
  {
    match level
    case Low => 0
    case Moderate => 1
    case High => 2
    case Extreme => 3
  }

  /** The message for one target; only its kind and value are modelled, not the rendered text. */
  datatype Message =
    | ExpectedFatalities(value: real)
    | ExpectedInjuriesIllnesses(value: real)
    | ExpectedMissingPersons(value: real)
    | ExpectedAffectedFamilies(value: real)

  datatype Interpretation = Interpretation(
    predictions: map<string, real>,
    interpretation: map<string, Message>,
    riskLevel: RiskLevel,
    recommendations: seq<string>)

  datatype InterpretError = PredictionTooShort   // IndexError: fewer outputs than target names

  function TotalCasualties(predictions: map<string, real>): real
  {
    Dicts.GetOrZero(predictions, DEAD) + Dicts.GetOrZero(predictions, INJURED_ILL)
      + Dicts.GetOrZero(predictions, MISSING)
  }

  function AffectedFamilies(predictions: map<string, real>): real
  {
    Dicts.GetOrZero(predictions, FAMILIES)
  }

  /** The first tier whose casualty or family threshold is exceeded, from the top. */
  function RiskLevelOf(totalCasualties: real, affectedFamilies: real): RiskLevel
  {
    if totalCasualties > 50.0 || affectedFamilies > 10000.0 then Extreme
    else if totalCasualties > 20.0 || affectedFamilies > 5000.0 then High
    else if totalCasualties > 5.0 || affectedFamilies > 1000.0 then Moderate
    else Low
  }

  /** The tiers above LOW as (casualties, families) thresholds, from MODERATE up. */
  const CASUALTY_TIERS: seq<real> := [5.0, 20.0, 50.0]
  const FAMILY_TIERS: seq<real> := [1000.0, 5000.0, 10000.0]

  /** The number of tiers whose casualty or family threshold is exceeded. */
  function TiersMet(totalCasualties: real, affectedFamilies: real, casualtyTiers: seq<real>, familyTiers: seq<real>): (n: nat)
    requires |casualtyTiers| == |familyTiers|
    ensures n <= |casualtyTiers|
  {
    if casualtyTiers == [] then 0
    else
      (if totalCasualties > casualtyTiers[0] || affectedFamilies > familyTiers[0] then 1 else 0)
      + TiersMet(totalCasualties, affectedFamilies, casualtyTiers[1..], familyTiers[1..])
  }

  lemma {:induction false} TiersMetMonotone(t1: real, f1: real, t2: real, f2: real, casualtyTiers: seq<real>, familyTiers: seq<real>)
    requires |casualtyTiers| == |familyTiers|
    requires t1 <= t2 && f1 <= f2
    ensures TiersMet(t1, f1, casualtyTiers, familyTiers) <= TiersMet(t2, f2, casualtyTiers, familyTiers)
  {
    if casualtyTiers != [] {
      TiersMetMonotone(t1, f1, t2, f2, casualtyTiers[1..], familyTiers[1..]);
    }
  }

  /** Because the thresholds increase, the first matching tier is the number of tiers met. */
  lemma RiskLevelCountsTiers(totalCasualties: real, affectedFamilies: real)
    ensures Severity(RiskLevelOf(totalCasualties, affectedFamilies))
            == TiersMet(totalCasualties, affectedFamilies, CASUALTY_TIERS, FAMILY_TIERS)
  {
    var c, f := CASUALTY_TIERS, FAMILY_TIERS;
    assert c[1..][1..] == c[2..] && c[2..][1..] == [];
    assert f[1..][1..] == f[2..] && f[2..][1..] == [];
    var t, a := totalCasualties, affectedFamilies;
    assert TiersMet(t, a, c[2..], f[2..]) == (if t > 50.0 || a > 10000.0 then 1 else 0);
    assert TiersMet(t, a, c[1..], f[1..]) == (if t > 20.0 || a > 5000.0 then 1 else 0) + TiersMet(t, a, c[2..], f[2..]);
  }

  /** More casualties or more affected families never lower the risk level. */
  lemma RiskLevelMonotone(t1: real, f1: real, t2: real, f2: real)
    requires t1 <= t2 && f1 <= f2
    ensures Severity(RiskLevelOf(t1, f1)) <= Severity(RiskLevelOf(t2, f2))
  {
    RiskLevelCountsTiers(t1, f1);
    RiskLevelCountsTiers(t2, f2);
    TiersMetMonotone(t1, f1, t2, f2, CASUALTY_TIERS, FAMILY_TIERS);
  }

  /** The message a target gets, if it is one of the four known targets. */
  function MessageFor(target: string, value: real): (m: Option<Message>)
    ensures m.Some? <==> target in INTERPRETED_TARGETS
  {
    if target == DEAD then Some(ExpectedFatalities(value))
    else if target == INJURED_ILL then Some(ExpectedInjuriesIllnesses(value))
    else if target == MISSING then Some(ExpectedMissingPersons(value))
    else if target == FAMILIES then Some(ExpectedAffectedFamilies(value))
    else None
  }

  /** `for target, value in pred_dict.items(): ...`: a message for exactly the known
      targets present, each carrying that target's predicted value. */
  method InterpretTargets(predictions: map<string, real>) returns (interpretation: map<string, Message>)
    ensures interpretation.Keys == predictions.Keys * INTERPRETED_TARGETS
    ensures forall t :: t in interpretation ==> Some(interpretation[t]) == MessageFor(t, predictions[t])
  {
    interpretation := map[];
    var pending := predictions.Keys;
    while pending != {}
      invariant pending <= predictions.Keys
      invariant interpretation.Keys == (predictions.Keys - pending) * INTERPRETED_TARGETS
      invariant forall t :: t in interpretation ==> Some(interpretation[t]) == MessageFor(t, predictions[t])
      decreases pending
    {
      var target :| target in pending;
      var message := MessageFor(target, predictions[target]);
      if message.Some? {
        interpretation := interpretation[target := message.value];
      }
      pending := pending - {target};
    }
  }

  /** The fixed recommendations of each level; a more severe level adds one more. */
  function Recommendations(level: RiskLevel): (r: seq<string>)
    ensures |r| == 2 + Severity(level)
  {
    match level
    case Extreme => [
      "Immediate evacuation of high-risk areas",
      "Deploy emergency response teams",
      "Activate all disaster response protocols",
      "Coordinate with national emergency services",
      "Prepare mass casualty response"]
    case High => [
      "Issue evacuation warnings for vulnerable areas",
      "Prepare emergency shelters",
      "Alert medical facilities",
      "Position rescue equipment"]
    case Moderate => [
      "Issue safety advisories",
      "Prepare emergency supplies",
      "Monitor weather conditions closely"]
    case Low => [
      "Continue monitoring weather conditions",
      "Ensure emergency preparedness"]
  }

  /** interpret_predictions for one row of model output: fails when the row has fewer
      values than there are target names; otherwise the dictionary pairs each target name
      with its output, the risk level follows the summed casualties and the families, each
      known target present gets its message, and the recommendations are the fixed list
      of the level. */
  method InterpretPredictions(targetNames: seq<string>, row: seq<real>)
    returns (r: Result<Interpretation, InterpretError>)
    ensures r.Err? <==> |row| < |targetNames|
    ensures r.Ok? ==> r.value.predictions.Keys == set i | 0 <= i < |targetNames| :: targetNames[i]
    ensures r.Ok? ==> forall i :: 0 <= i < |targetNames| && Dicts.LastOccurrence(targetNames, |targetNames|, i)
                        ==> r.value.predictions[targetNames[i]] == row[i]
    ensures r.Ok? ==> r.value.riskLevel
                        == RiskLevelOf(TotalCasualties(r.value.predictions), AffectedFamilies(r.value.predictions))
    ensures r.Ok? ==> r.value.predictions == Dicts.ZipToMap(targetNames, row)
    ensures r.Ok? ==> r.value.interpretation.Keys == r.value.predictions.Keys * INTERPRETED_TARGETS
    ensures r.Ok? ==> forall t :: t in r.value.interpretation ==>
                        Some(r.value.interpretation[t]) == MessageFor(t, r.value.predictions[t])
    ensures r.Ok? ==> r.value.recommendations == Recommendations(r.value.riskLevel)
    ensures r.Ok? ==> |r.value.recommendations| == 2 + Severity(r.value.riskLevel)
  {
    if |row| < |targetNames| {
      return Err(PredictionTooShort);
    }
    var predictions := Dicts.ZipToMap(targetNames, row);
    assert Dicts.Min(|targetNames|, |row|) == |targetNames|;
    var level := RiskLevelOf(TotalCasualties(predictions), AffectedFamilies(predictions));
    var interpretation := InterpretTargets(predictions);
    var recommendations := Recommendations(level);
    return Ok(Interpretation(predictions, interpretation, level, recommendations));
  }
}
