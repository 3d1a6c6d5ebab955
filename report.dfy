/**
 * The result string every prediction returns (app.py:39, 45, 51):
 * `f"{risk_label(prob)} (Probability: {prob:.2f})"`. The two-decimal rendering
 * of the probability is passed in as text; `ParseReport` reads a result back.
 */
module Reports {
  import opened Wrappers
  import opened RiskLabels

  /** What stands between the label and the probability. */
  const Opening: string := " (Probability: "
  /** What ends the result. */
  const Closing: string := ")"

  /** The label, then the probability text in parentheses. */
  function Report(l: Label, probText: string): string {
    l.Text() + Opening + probText + Closing
  }

  /** The label whose text starts s, if any (no label text is a prefix of another). */
  function LabelPrefix(s: string): (r: Option<Label>)
    ensures r.Some? ==> r.value.Text() <= s
  {
    if Low.Text() <= s then Some(Low)
    else if Medium.Text() <= s then Some(Medium)
    else if High.Text() <= s then Some(High)
    else None
  }

  /** Splits a result string into its label and its probability text. */
  function ParseReport(s: string): Option<(Label, string)> {
    match LabelPrefix(s)
    case None => None
    case Some(l) =>
      var rest := s[|l.Text()|..];
      if Opening <= rest && |Opening| < |rest| && rest[|rest| - 1..] == Closing
      then Some((l, rest[|Opening|..|rest| - 1]))
      else None
  }

  /** A result string gives back the label and the probability text it was made of. */
  lemma ParseReportRoundTrip(l: Label, probText: string)
    ensures ParseReport(Report(l, probText)) == Some((l, probText))
  {
    var s := Report(l, probText);
    assert s == l.Text() + (Opening + probText + Closing);
    match l
    case Low =>
    case Medium =>
      assert s[0] == 'M';
    case High =>
      assert s[0] == 'H';
  }

  /** Whatever ParseReport accepts is exactly the result of its parts. */
  lemma ParseReportSound(s: string)
    ensures ParseReport(s).Some? ==> Report(ParseReport(s).value.0, ParseReport(s).value.1) == s
  {
  }

  /** Two results are equal exactly when their labels and probability texts are. */
  lemma ReportInjective(l: Label, t: string, m: Label, u: string)
    ensures Report(l, t) == Report(m, u) <==> l == m && t == u
  {
    ParseReportRoundTrip(l, t);
    ParseReportRoundTrip(m, u);
  }
}
