/**
 * The three screenings (app.py:31-51). Each gathers its answers into one row
 * in a fixed column order, which must be the order its scaler and classifier
 * were fit with, and runs the shared pipeline with its own artifacts. No
 * answer is checked: the 0/1 and 0..3 choices exist only in the form's radio
 * buttons (app.py:64, 107), so any number reaches the scaler.
 */
module Conditions {
  import opened Wrappers
  import opened RiskLabels
  import opened Reports
  import opened Pipeline

  /**
   * The six artifacts loaded at start-up (app.py:8-15): one scaler and
   * classifier pair per condition, each used only by its own prediction.
   */
  datatype Deployment = Deployment(lung: Artifacts, heart: Artifacts, breast: Artifacts)

  /** The answers of the lung cancer form, named as `predict_lung` names its parameters. */
  datatype LungAnswers = LungAnswers(
    gender: real, age: real, smoking: real, chronic: real,
    wheezing: real, coughing: real, sob: real, chestPain: real)
  {
    /** The answer to the named question, if the form has one. */
    function Get(column: string): Option<real> {
      if column == "gender" then Some(gender)
      else if column == "age" then Some(age)
      else if column == "smoking" then Some(smoking)
      else if column == "chronic" then Some(chronic)
      else if column == "wheezing" then Some(wheezing)
      else if column == "coughing" then Some(coughing)
      else if column == "sob" then Some(sob)
      else if column == "chest_pain" then Some(chestPain)
      else None
    }
  }

  /** The lung classifier's column order. */
  const LungColumns: seq<string> :=
    ["gender", "age", "smoking", "chronic", "wheezing", "coughing", "sob", "chest_pain"]

  /** The row `predict_lung` builds: eight entries, the i-th the answer named by the i-th column. */
  function LungRow(x: LungAnswers): (row: Row)
    ensures |row| == |LungColumns| == 8
    ensures forall i :: 0 <= i < |row| ==> x.Get(LungColumns[i]) == Some(row[i])
  {
    [x.gender, x.age, x.smoking, x.chronic, x.wheezing, x.coughing, x.sob, x.chestPain]
  }

  /** `predict_lung`: the label and the two-decimal rendering are of the same probability. */
  function PredictLung(d: Deployment, x: LungAnswers, fmt2: real -> string): (r: Result<string, PipelineError>)
    ensures r.Ok? <==> PositiveProbability(d.lung, LungRow(x)).Ok?
    ensures r.Err? ==> r.error == PositiveProbability(d.lung, LungRow(x)).error
    ensures r.Ok? ==>
      var p := PositiveProbability(d.lung, LungRow(x)).value;
      ParseReport(r.value) == Some((RiskLabel(p), fmt2(p)))
  {
    Assess(d.lung, LungRow(x), fmt2)
  }

  /** The answers of the heart disease form. */
  datatype HeartAnswers = HeartAnswers(age: real, sex: real, cp: real, exang: real) {
    /** The answer to the named question, if the form has one. */
    function Get(column: string): Option<real> {
      if column == "age" then Some(age)
      else if column == "sex" then Some(sex)
      else if column == "cp" then Some(cp)
      else if column == "exang" then Some(exang)
      else None
    }
  }

  /** The heart classifier's column order. */
  const HeartColumns: seq<string> := ["age", "sex", "cp", "exang"]

  /** The row `predict_heart` builds: four entries, in column order. */
  function HeartRow(x: HeartAnswers): (row: Row)
    ensures |row| == |HeartColumns| == 4
    ensures forall i :: 0 <= i < |row| ==> x.Get(HeartColumns[i]) == Some(row[i])
  {
    [x.age, x.sex, x.cp, x.exang]
  }

  /** `predict_heart`: the label and the two-decimal rendering are of the same probability. */
  function PredictHeart(d: Deployment, x: HeartAnswers, fmt2: real -> string): (r: Result<string, PipelineError>)
    ensures r.Ok? <==> PositiveProbability(d.heart, HeartRow(x)).Ok?
    ensures r.Err? ==> r.error == PositiveProbability(d.heart, HeartRow(x)).error
    ensures r.Ok? ==>
      var p := PositiveProbability(d.heart, HeartRow(x)).value;
      ParseReport(r.value) == Some((RiskLabel(p), fmt2(p)))
  {
    Assess(d.heart, HeartRow(x), fmt2)
  }

  /** The answers of the breast cancer form. */
  datatype BreastAnswers = BreastAnswers(
    age: real, family: real, pain: real, lump: real, discharge: real, skin: real)
  {
    /** The answer to the named question, if the form has one. */
    function Get(column: string): Option<real> {
      if column == "age" then Some(age)
      else if column == "family" then Some(family)
      else if column == "pain" then Some(pain)
      else if column == "lump" then Some(lump)
      else if column == "discharge" then Some(discharge)
      else if column == "skin" then Some(skin)
      else None
    }
  }

  /** The breast classifier's column order. */
  const BreastColumns: seq<string> := ["age", "family", "pain", "lump", "discharge", "skin"]

  /** The row `predict_breast` builds: six entries, in column order. */
  function BreastRow(x: BreastAnswers): (row: Row)
    ensures |row| == |BreastColumns| == 6
    ensures forall i :: 0 <= i < |row| ==> x.Get(BreastColumns[i]) == Some(row[i])
  {
    [x.age, x.family, x.pain, x.lump, x.discharge, x.skin]
  }

  /** `predict_breast`: the label and the two-decimal rendering are of the same probability. */
  function PredictBreast(d: Deployment, x: BreastAnswers, fmt2: real -> string): (r: Result<string, PipelineError>)
    ensures r.Ok? <==> PositiveProbability(d.breast, BreastRow(x)).Ok?
    ensures r.Err? ==> r.error == PositiveProbability(d.breast, BreastRow(x)).error
    ensures r.Ok? ==>
      var p := PositiveProbability(d.breast, BreastRow(x)).value;
      ParseReport(r.value) == Some((RiskLabel(p), fmt2(p)))
  {
    Assess(d.breast, BreastRow(x), fmt2)
  }

  /** A lung case whose classifier gives 0.82 is reported as High Risk. */
  lemma LungHighRiskExample(d: Deployment, fmt2: real -> string, scaled: Matrix)
    requires d.lung.transform([[1.0, 55.0, 1.0, 0.0, 1.0, 1.0, 1.0, 0.0]]) == Some(scaled)
    requires d.lung.predictProba(scaled) == Some([[0.18, 0.82]])
    requires fmt2(0.82) == "0.82"
    ensures PredictLung(d, LungAnswers(1.0, 55.0, 1.0, 0.0, 1.0, 1.0, 1.0, 0.0), fmt2)
         == Ok("High Risk (Probability: 0.82)")
  {
    var x := LungAnswers(1.0, 55.0, 1.0, 0.0, 1.0, 1.0, 1.0, 0.0);
    assert PositiveProbability(d.lung, LungRow(x)) == Ok(0.82);
    assert Report(High, "0.82") == "High Risk (Probability: 0.82)";
  }

  /** A heart case whose classifier gives 0.12 is reported as Low Risk. */
  lemma HeartLowRiskExample(d: Deployment, fmt2: real -> string, scaled: Matrix)
    requires d.heart.transform([[40.0, 0.0, 0.0, 0.0]]) == Some(scaled)
    requires d.heart.predictProba(scaled) == Some([[0.88, 0.12]])
    requires fmt2(0.12) == "0.12"
    ensures PredictHeart(d, HeartAnswers(40.0, 0.0, 0.0, 0.0), fmt2) == Ok("Low Risk (Probability: 0.12)")
  {
    var x := HeartAnswers(40.0, 0.0, 0.0, 0.0);
    assert PositiveProbability(d.heart, HeartRow(x)) == Ok(0.12);
    assert Report(Low, "0.12") == "Low Risk (Probability: 0.12)";
  }

  /**
   * As written, a lung case whose classifier gives 0.2996 is labelled Low
   * Risk while the probability shown beside it, 0.30, lies in the Medium band.
   */
  lemma LungShownLabelMismatchExample(d: Deployment, fmt2: real -> string, scaled: Matrix)
    requires d.lung.transform([[1.0, 55.0, 1.0, 0.0, 1.0, 1.0, 1.0, 0.0]]) == Some(scaled)
    requires d.lung.predictProba(scaled) == Some([[0.7004, 0.2996]])
    requires fmt2(0.2996) == "0.30"
    ensures PredictLung(d, LungAnswers(1.0, 55.0, 1.0, 0.0, 1.0, 1.0, 1.0, 0.0), fmt2)
         == Ok("Low Risk (Probability: 0.30)")
    ensures RiskLabel(0.30) == Medium
  {
    var x := LungAnswers(1.0, 55.0, 1.0, 0.0, 1.0, 1.0, 1.0, 0.0);
    assert PositiveProbability(d.lung, LungRow(x)) == Ok(0.2996);
    assert Report(Low, "0.30") == "Low Risk (Probability: 0.30)";
  }

  /**
   * Answers outside the form's choices are not rejected: a binary answer of 2
   * or a negative age reaches the scaler like any other.
   */
  lemma OutOfRangeAnswersReachScaler(d: Deployment, fmt2: real -> string, scaled: Matrix)
    requires d.heart.transform([[-5.0, 2.0, 7.0, 2.0]]) == Some(scaled)
    requires d.heart.predictProba(scaled) == Some([[0.5, 0.5]])
    ensures PredictHeart(d, HeartAnswers(-5.0, 2.0, 7.0, 2.0), fmt2).Ok?
  {
  }
}
