/**
 * The three-way risk categoriser (`risk_label`, app.py:20-26): a probability
 * is mapped to Low, Medium or High by two thresholds with inclusive lower
 * bounds. Python compares IEEE doubles against the literals 0.3 and 0.7
 * (app.py:21, 23); the model compares exact reals against 3/10 and 7/10.
 */
module RiskLabels {

  /** The ordinal risk labels, lowest first. */
  datatype Label = Low | Medium | High {

    /** The string the source returns for this label. */
    function Text(): string {
      match this
      case Low => "Low Risk"
      case Medium => "Medium Risk"
      case High => "High Risk"
    }

    /** Position in the order Low < Medium < High. */
    function Rank(): nat {
      match this
      case Low => 0
      case Medium => 1
      case High => 2
    }
  }

  /** Lowest probability labelled Medium. */
  const MediumFrom: real := 0.3
  /** Lowest probability labelled High. */
  const HighFrom: real := 0.7
  /** The thresholds in increasing order. */
  const Thresholds: seq<real> := [MediumFrom, HighFrom]

  /**
   * `risk_label(p)`. Total: there is no check that p lies in [0, 1], so a
   * value below 0 is Low and a value above 1 is High.
   */
  function RiskLabel(p: real): Label {
    if p < MediumFrom then Low
    else if p < HighFrom then Medium
    else High
  }

  /** How many of the thresholds `ts` the probability p reaches. */
  function CountReached(ts: seq<real>, p: real): (n: nat)
    ensures n <= |ts|
  {
    if ts == [] then 0
    else (if ts[0] <= p then 1 else 0) + CountReached(ts[1..], p)
  }

  /** Each label is taken on exactly one half-open band of probabilities. */
  lemma RiskLabelBands(p: real)
    ensures RiskLabel(p) == Low <==> p < 0.3
    ensures RiskLabel(p) == Medium <==> 0.3 <= p < 0.7
    ensures RiskLabel(p) == High <==> 0.7 <= p
    ensures RiskLabel(p).Text() in {"Low Risk", "Medium Risk", "High Risk"}
  {
  }

  /** The exact boundaries, and values outside [0, 1], which are not rejected. */
  lemma RiskLabelBoundaries()
    ensures RiskLabel(0.0) == Low && RiskLabel(0.29999) == Low
    ensures RiskLabel(0.3) == Medium && RiskLabel(0.69999) == Medium
    ensures RiskLabel(0.7) == High && RiskLabel(1.0) == High
    ensures RiskLabel(-0.5) == Low && RiskLabel(1.5) == High
  {
  }

  /** Distinct labels are rendered as distinct strings. */
  lemma LabelTextInjective(l: Label, m: Label)
    ensures l.Text() == m.Text() <==> l == m
  {
  }

  /** The rank of the label is the number of thresholds the probability reaches. */
  lemma RankCountsThresholds(p: real)
    ensures RiskLabel(p).Rank() == CountReached(Thresholds, p)
  {
  }

  /** Reaching more of the thresholds needs a larger probability. */
  lemma {:induction false} CountReachedMonotone(ts: seq<real>, p: real, q: real)
    requires p <= q
    ensures CountReached(ts, p) <= CountReached(ts, q)
  {
    if ts != [] {
      CountReachedMonotone(ts[1..], p, q);
    }
  }

  /** A larger probability never gets a lower label. */
  lemma RiskLabelMonotone(p: real, q: real)
    requires p <= q
    ensures RiskLabel(p).Rank() <= RiskLabel(q).Rank()
  {
    RankCountsThresholds(p);
    RankCountsThresholds(q);
    CountReachedMonotone(Thresholds, p, q);
  }
}
