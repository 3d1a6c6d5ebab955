/**
 * The shape shared by `predict_lung`, `predict_heart` and `predict_breast`
 * (app.py:31-51): one row becomes a one-row matrix, the condition's scaler
 * transforms it, the condition's classifier gives class probabilities for the
 * scaled matrix, entry [0][1] is the probability of the positive class, and
 * the result is that probability's label and its two-decimal rendering.
 */
module Pipeline {
  import opened Wrappers
  import opened RiskLabels
  import opened Reports
  import opened Display

  /** One case: the answers in the column order the artifacts were fit with. */
  type Row = seq<real>
  /** A batch of rows, as the scaler and the classifier take and return them. */
  type Matrix = seq<seq<real>>

  /**
   * A condition's fitted scaler (`transform`) and classifier (`predict_proba`).
   * What they compute is not part of this model; None stands for an exception
   * they raise, which the source lets reach its caller.
   */
  datatype Artifacts = Artifacts(transform: Matrix -> Option<Matrix>, predictProba: Matrix -> Option<Matrix>)

  /** Why a prediction yields no result string. */
  datatype PipelineError =
    | TransformRaised     // the scaler raised
    | PredictProbaRaised  // the classifier raised
    | NoPositiveClass     // the class probabilities have no entry [0][1]

  /** `predict_proba(transform([row]))[0][1]`. */
  function PositiveProbability(a: Artifacts, row: Row): Result<real, PipelineError> {
    match a.transform([row])
    case None => Err(TransformRaised)
    case Some(scaled) =>
      match a.predictProba(scaled)
      case None => Err(PredictProbaRaised)
      case Some(proba) =>
        if |proba| > 0 && |proba[0]| > 1 then Ok(proba[0][1]) else Err(NoPositiveClass)
  }

  /**
   * One prediction for one row. `fmt2` is the `{prob:.2f}` rendering. Nothing
   * is checked about the row or the probability: every failure comes from the
   * artifacts or from the shape of what they return.
   */
  function Assess(a: Artifacts, row: Row, fmt2: real -> string): (r: Result<string, PipelineError>)
    ensures r.Ok? <==> PositiveProbability(a, row).Ok?
    ensures r.Err? ==> r.error == PositiveProbability(a, row).error
    ensures r.Ok? ==>
      var p := PositiveProbability(a, row).value;
      ParseReport(r.value) == Some((RiskLabel(p), fmt2(p)))
  {
    match PositiveProbability(a, row)
    case Err(e) => Err(e)
    case Ok(p) =>
      ParseReportRoundTrip(RiskLabel(p), fmt2(p));
      Ok(Report(RiskLabel(p), fmt2(p)))
  }

  /**
   * The pipeline with the label taken of the probability as shown, rounded to
   * two decimals, so that the label and the number beside it always agree.
   * `Assess` is the source as written; this is the corrected form.
   */
  function AssessShown(a: Artifacts, row: Row, fmt2: real -> string): (r: Result<string, PipelineError>)
    ensures r.Ok? <==> PositiveProbability(a, row).Ok?
    ensures r.Err? ==> r.error == PositiveProbability(a, row).error
    ensures r.Ok? ==>
      var p := PositiveProbability(a, row).value;
      ParseReport(r.value) == Some((RiskLabel(Round2(p)), fmt2(p)))
  {
    match PositiveProbability(a, row)
    case Err(e) => Err(e)
    case Ok(p) =>
      ParseReportRoundTrip(ShownRiskLabel(p), fmt2(p));
      Ok(Report(ShownRiskLabel(p), fmt2(p)))
  }

  /**
   * Rows whose probabilities are shown alike get the same label from
   * `AssessShown` (this holds of any labelling of the shown value).
   */
  lemma AssessShownConsistent(a: Artifacts, row1: Row, row2: Row, fmt2: real -> string)
    requires PositiveProbability(a, row1).Ok? && PositiveProbability(a, row2).Ok?
    requires Round2(PositiveProbability(a, row1).value) == Round2(PositiveProbability(a, row2).value)
    ensures ParseReport(AssessShown(a, row1, fmt2).value).value.0
         == ParseReport(AssessShown(a, row2, fmt2).value).value.0
  {
  }

  /**
   * The label of `AssessShown` differs from that of `Assess` only when the
   * probability is within half a hundredth of a threshold.
   */
  lemma AssessShownNearThreshold(a: Artifacts, row: Row, fmt2: real -> string)
    requires PositiveProbability(a, row).Ok?
    ensures
      var p := PositiveProbability(a, row).value;
      ParseReport(AssessShown(a, row, fmt2).value).value.0 != ParseReport(Assess(a, row, fmt2).value).value.0
      ==> (-0.005 <= p - MediumFrom <= 0.005) || (-0.005 <= p - HighFrom <= 0.005)
  {
  }

  /** How the three kinds of failure arise, in the order the source meets them. */
  lemma PositiveProbabilityFailures(a: Artifacts, row: Row)
    ensures PositiveProbability(a, row) == Err(TransformRaised) <==> a.transform([row]).None?
    ensures PositiveProbability(a, row) == Err(PredictProbaRaised) <==>
      a.transform([row]).Some? && a.predictProba(a.transform([row]).value).None?
    ensures PositiveProbability(a, row) == Err(NoPositiveClass) <==>
      && a.transform([row]).Some?
      && a.predictProba(a.transform([row]).value).Some?
      && var proba := a.predictProba(a.transform([row]).value).value;
         !(|proba| > 0 && |proba[0]| > 1)
  {
  }

  /**
   * The classifier is given the scaler's output, never the raw row: two rows
   * the scaler maps to the same matrix get the same result.
   */
  lemma ClassifierSeesScaledRow(a: Artifacts, row1: Row, row2: Row, fmt2: real -> string)
    requires a.transform([row1]) == a.transform([row2])
    ensures Assess(a, row1, fmt2) == Assess(a, row2, fmt2)
  {
  }

  /**
   * The probability reported is entry [0][1] of the class probabilities of the
   * scaled row: a classifier that answers `proba` for the scaled matrix makes
   * the result the label and rendering of `proba[0][1]`.
   */
  lemma AssessReportsPositiveClass(a: Artifacts, row: Row, fmt2: real -> string, scaled: Matrix, proba: Matrix)
    requires a.transform([row]) == Some(scaled)
    requires a.predictProba(scaled) == Some(proba)
    requires |proba| > 0 && |proba[0]| > 1
    ensures Assess(a, row, fmt2) == Ok(Report(RiskLabel(proba[0][1]), fmt2(proba[0][1])))
  {
  }
}
