# Patient health-risk screening: the risk-assessment pipeline

This project models the core of a small screening tool that estimates the risk
of lung cancer, heart disease and breast cancer from a short questionnaire
(`app.py`). For each condition the answers are gathered into one row in a fixed
column order. The condition's fitted scaler transforms the row, and the
condition's classifier gives the probability of the positive class. That
probability is turned into a label: Low Risk below 0.3, Medium Risk from 0.3 up
to 0.7, High Risk from 0.7 on. The result is the string
`"<label> (Probability: <p>)"`, with `p` shown to two decimals.

Modules:

- `RiskLabels` (`risk_label.dfy`): `risk_label` as `RiskLabel`, over the labels
  `Low | Medium | High` and their strings. Its partner is a second definition,
  `CountReached`: the rank of the label equals the number of thresholds the
  probability reaches. `RiskLabelMonotone`'s written proof goes through it and `CountReachedMonotone`
  (induction over the thresholds); Dafny also gets the fact directly.
- `Reports` (`report.dfy`): the result string as `Report`, and its inverse
  `ParseReport`, which reads the label and the probability text back.
- `Pipeline` (`pipeline.dfy`): the shape shared by the three predictions. The
  scaler and the classifier are function values in `Artifacts`; the model does
  not fix what they compute. `None` stands for an exception they raise, which
  the source lets propagate. The `{prob:.2f}` rendering is the parameter `fmt2`.
- `Conditions` (`conditions.dfy`): the three forms, their column orders, the
  rows they build, the six loaded artifacts as a `Deployment` (one pair per
  condition) and `PredictLung`, `PredictHeart` and `PredictBreast`.
- `Display` (`display.dfy`): `Round2`, the two-decimal rounding the result
  shows, and the mismatch between the label and the shown number (see
  "## Findings").

Thresholds are exact reals (3/10 and 7/10). Python compares IEEE doubles with
the literals `0.3` and `0.7`. A probability written `0.3` is Medium Risk in both.

No answer and no probability is validated. The 0/1 and 0..3 choices exist
only as radio buttons in the form (app.py:64, 107), so any number reaches the
scaler. A probability below 0 is Low Risk and one above 1 is High Risk. The
only failures are the artifacts raising and a class-probability matrix without
an entry [0][1].

## Model

| member | source | states |
|---|---|---|
| `RiskLabels.RiskLabel` | app.py:20-26 | `risk_label`; its contract is stated by `RiskLabelBands`, `RankCountsThresholds` and `RiskLabelMonotone` |
| `RiskLabels.RiskLabelBands` | app.py:20-26 | Low exactly when p < 0.3, Medium exactly when 0.3 <= p < 0.7, High exactly when p >= 0.7, and the string is always one of the three labels: no p is rejected |
| `RiskLabels.RiskLabelBoundaries` | app.py:20-26 | 0.0 and 0.29999 are Low, 0.3 and 0.69999 Medium, 0.7 and 1.0 High; -0.5 is Low and 1.5 is High, since out-of-range values are not rejected |
| `RiskLabels.RankCountsThresholds` | app.py:20-26 | the rank of the label (Low 0, Medium 1, High 2) is the number of the thresholds 0.3 and 0.7 that p reaches, with inclusive lower bounds |
| `RiskLabels.RiskLabelMonotone` | app.py:20-26 | p <= q implies the label of p ranks no higher than the label of q |
| `RiskLabels.LabelTextInjective` | app.py:22-26 | the three returned strings are pairwise distinct, so the string determines the label |
| `Reports.Report` | app.py:39 | the f-string of the label and the probability text; its contract is stated by `ParseReportRoundTrip`, `ParseReportSound` and `ReportInjective` |
| `Reports.ParseReportRoundTrip` | app.py:39 | reading a result string back yields the label and probability text it was built from |
| `Reports.ParseReportSound` | app.py:39 | every string the reader accepts is exactly the result string of the parts it returns |
| `Reports.ReportInjective` | app.py:39 | two result strings are equal exactly when their labels and probability texts are equal |
| `Pipeline.PositiveProbability` | app.py:37-38 | `predict_proba(transform([row]))[0][1]`; its contract is stated by `PositiveProbabilityFailures`, `ClassifierSeesScaledRow` and `AssessReportsPositiveClass` |
| `Pipeline.Assess` | app.py:37-39 | succeeds exactly when the positive-class probability exists; failures are passed on unchanged; on success the string reads back as the label of that probability p and the rendering of the same p |
| `Pipeline.AssessShown` | app.py:39 | corrected form: as `Assess`, but the label is that of p rounded to two decimals, the number that is shown |
| `Pipeline.AssessShownConsistent` | app.py:39 | with the corrected form, rows whose probabilities are shown alike get the same label; this follows from labelling the shown value and holds of any such labelling |
| `Pipeline.AssessShownNearThreshold` | app.py:39 | the corrected label differs from the as-written one only for probabilities within 0.005 of 0.3 or 0.7 |
| `Pipeline.PositiveProbabilityFailures` | app.py:37-38 | the scaler is run first and its exception wins; then the classifier's; then a result matrix without entry [0][1] fails |
| `Pipeline.ClassifierSeesScaledRow` | app.py:37-38 | two rows that the scaler maps to the same matrix get the same result: the classifier is given the scaled matrix, never the raw row |
| `Pipeline.AssessReportsPositiveClass` | app.py:37-39 | when the classifier returns `proba` for the scaled one-row matrix, the result is the label and rendering of `proba[0][1]` |
| `Conditions.LungRow` | app.py:34-36 | the lung row has 8 entries; entry i is the answer named by column i of gender, age, smoking, chronic, wheezing, coughing, sob, chest_pain |
| `Conditions.PredictLung` | app.py:31-39 | uses the lung artifacts only; succeeds exactly when they give a positive-class probability for the lung row; the label and the two-decimal rendering are of the same probability |
| `Conditions.HeartRow` | app.py:41-42 | the heart row has 4 entries ordered age, sex, cp, exang |
| `Conditions.PredictHeart` | app.py:41-45 | as `PredictLung`, for the heart row and the heart artifacts |
| `Conditions.BreastRow` | app.py:47-48 | the breast row has 6 entries ordered age, family, pain, lump, discharge, skin |
| `Conditions.PredictBreast` | app.py:47-51 | as `PredictLung`, for the breast row and the breast artifacts |
| `Conditions.LungHighRiskExample` | app.py:31-39 | answers (1, 55, 1, 0, 1, 1, 1, 0) with a classifier giving 0.82 produce exactly "High Risk (Probability: 0.82)" |
| `Conditions.HeartLowRiskExample` | app.py:41-45 | answers (40, 0, 0, 0) with a classifier giving 0.12 produce exactly "Low Risk (Probability: 0.12)" |
| `Conditions.LungShownLabelMismatchExample` | app.py:31-39 | as written: lung answers with a classifier giving 0.2996 and a rendering "0.30" produce exactly "Low Risk (Probability: 0.30)", though 0.30 is Medium |
| `Conditions.OutOfRangeAnswersReachScaler` | app.py:41-45 | the answers (age -5, sex 2, cp 7, exang 2) are not rejected: with a heart scaler that accepts the row and a classifier answering [[0.5, 0.5]], the prediction succeeds |
| `Display.Round2` | app.py:39 | the value the two-decimal rendering denotes: the exact value rounded to hundredths, ties to even; its contract is stated by `Round2Nearest` |
| `Display.Round2Nearest` | app.py:39 | the shown value is within 0.005 of the probability and a whole number of hundredths |
| `Display.SameShownDifferentLabel` | app.py:39 | as written: 0.2996 and 0.3 are both shown as 0.30 but labelled Low and Medium; 0.6996 and 0.7 are both shown as 0.70 but labelled Medium and High |
| `Display.SameShownSameLabel` | app.py:39 | corrected: labelling the shown value, probabilities shown alike get the same label; this follows from the definition, and the substance of the correction is `ShownLabelNearThreshold` |
| `Display.ShownLabelNearThreshold` | app.py:39 | the corrected label differs from the as-written one only for probabilities within 0.005 of 0.3 or 0.7 |

## Findings

| source | as written | input that shows it | evidently intended | confidence | as-written member | corrected member |
|---|---|---|---|---|---|---|
| app.py:39 (and 45, 51) | the label is of the unrounded `prob`, the number shown is `prob` to two decimals | prob = 0.2996 gives "Low Risk (Probability: 0.30)", though 0.30 is Medium; prob = 0.6996 gives "Medium Risk (Probability: 0.70)" | the label agrees with the number shown beside it | low, not executed; it may be accepted display behaviour | `Display.SameShownDifferentLabel` | `Pipeline.AssessShown` |

`Conditions.LungShownLabelMismatchExample` shows the mismatch through
`PredictLung` itself. `PredictLung`, `PredictHeart` and `PredictBreast` keep
the behaviour as written. `AssessShown`, with `AssessShownConsistent` and the `Display` lemmas,
states the corrected behaviour.

## Left out

- The form (app.py:56-145): tabs, radio buttons, number fields, buttons and `app.launch()`. It is presentation only. Its radio-button choices are recorded in the `Conditions` module comment.
- Loading the six artifacts with `joblib.load` (app.py:8-15): file I/O and unpickling. The model takes the loaded artifacts as values.
- What the scaler and classifier compute (scikit-learn, floating point): they are uninterpreted function values in `Artifacts`. The model does not assume the scaler keeps the row length.
- The `{prob:.2f}` rendering (app.py:39, 45, 51): printing the digits. It is the parameter `fmt2`, and the model states only that the text shown is the rendering of the same probability that was labelled. `Round2` gives the value that text denotes, rounding the exact value with ties to even; nothing ties `fmt2` to `Round2`.
- Floating point in general: answers and probabilities are exact reals. NumPy's conversion of the answers to a float array is not modelled. An empty number field or an unselected radio button gives `None`. NumPy keeps it in an object array; what the scaler does with it (scikit-learn's input check usually casts it to NaN) is up to the artifacts.
- NaN probabilities: `risk_label(nan)` returns "High Risk", because both comparisons at app.py:21 and app.py:23 are false. Exact reals have no NaN, so the model does not capture this.
- Concurrency and request dispatch belong to the form's framework; the core is sequential.
- Repeating a call gives the same result. This holds because every member is a function; no lemma states it.
