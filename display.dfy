/**
 * The probability shown in a result is `prob` to two decimals (app.py:39, 45,
 * 51), while the label is taken of the unrounded `prob`. Near a threshold the
 * shown number can therefore lie in the next band. `Round2` is the two-decimal
 * rounding that `{prob:.2f}` performs on the exact value (ties to even);
 * `ShownRiskLabel` labels the number that is shown instead.
 */
module Display {
  import opened RiskLabels

  /** The nearest multiple of 1/100 to p, ties to the even multiple. */
  function Round2(p: real): real {
    var n := (p * 100.0).Floor;
    var frac := p * 100.0 - n as real;
    var k := if frac > 0.5 then n + 1
             else if frac < 0.5 then n
             else if n % 2 == 0 then n else n + 1;
    k as real / 100.0
  }

  /** Round2 moves p by at most half a hundredth, onto a whole number of hundredths. */
  lemma Round2Nearest(p: real)
    ensures -0.005 <= Round2(p) - p <= 0.005
    ensures (Round2(p) * 100.0).Floor as real == Round2(p) * 100.0
  {
  }

  /**
   * As the source is written: 0.2996 and 0.3 are both shown as 0.30 but get
   * different labels, and so do 0.6996 and 0.7, shown as 0.70.
   */
  lemma SameShownDifferentLabel()
    ensures Round2(0.2996) == Round2(0.3) == 0.3
    ensures RiskLabel(0.2996) == Low && RiskLabel(0.3) == Medium
    ensures Round2(0.6996) == Round2(0.7) == 0.7
    ensures RiskLabel(0.6996) == Medium && RiskLabel(0.7) == High
  {
  }

  /** The label of the number that is shown. */
  function ShownRiskLabel(p: real): Label {
    RiskLabel(Round2(p))
  }

  /** Labelling the shown number, two probabilities shown alike get the same label. */
  lemma SameShownSameLabel(p: real, q: real)
    requires Round2(p) == Round2(q)
    ensures ShownRiskLabel(p) == ShownRiskLabel(q)
  {
  }

  /**
   * Labelling the shown number differs from labelling the probability only
   * within half a hundredth of a threshold.
   */
  lemma ShownLabelNearThreshold(p: real)
    ensures ShownRiskLabel(p) != RiskLabel(p) ==>
      (-0.005 <= p - MediumFrom <= 0.005) || (-0.005 <= p - HighFrom <= 0.005)
  {
  }
}
