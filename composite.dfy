/** Combining the three condition scores into one composite risk. Two variants
    exist side by side: a weighted mean whose high-risk override looks at the
    cardiac and renal scores only, and an undivided weighted sum whose
    override looks at all three. */
module CompositeRisk {

  /** Priority weights of the three conditions. */
  const HeartWeight: real := 0.50
  const KidneyWeight: real := 0.30
  const DiabetesWeight: real := 0.20

  /** A score above this counts as extremely high, and the composite is then floored at it. */
  const ExtremeRisk: real := 0.9

  function WeightedSum(heart: real, kidney: real, diabetes: real): real {
    heart * HeartWeight + kidney * KidneyWeight + diabetes * DiabetesWeight
  }

  function TotalWeight(): (w: real)
    ensures w > 0.0
  {
    HeartWeight + KidneyWeight + DiabetesWeight
  }

  /** `max(risk, 0.9)` */
  function AtLeastExtreme(risk: real): real {
    if risk < ExtremeRisk then ExtremeRisk else risk
  }

  /** `if extreme and risk < 0.9: risk = max(risk, 0.9)` */
  function OverrideFloor(risk: real, extreme: bool): (r: real)
    ensures r >= risk
    ensures extreme ==> r >= ExtremeRisk
    ensures !extreme ==> r == risk
    ensures r == risk || r == ExtremeRisk
  {
    if extreme && risk < ExtremeRisk then AtLeastExtreme(risk) else risk
  }

  /** The weighted mean, floored at 0.9 when the cardiac or the renal score
      exceeds 0.9; an extreme metabolic score does not trigger the floor. */
  function CombinedRiskMean(heart: real, kidney: real, diabetes: real): (r: real)
    ensures r >= WeightedSum(heart, kidney, diabetes) / TotalWeight()
    ensures heart > ExtremeRisk || kidney > ExtremeRisk ==> r >= ExtremeRisk
    ensures heart <= ExtremeRisk && kidney <= ExtremeRisk ==> r == WeightedSum(heart, kidney, diabetes) / TotalWeight()
    ensures heart > ExtremeRisk || kidney > ExtremeRisk ==> r == AtLeastExtreme(WeightedSum(heart, kidney, diabetes) / TotalWeight())
    ensures r == WeightedSum(heart, kidney, diabetes) / TotalWeight() || r == ExtremeRisk
  {
    OverrideFloor(WeightedSum(heart, kidney, diabetes) / TotalWeight(), heart > ExtremeRisk || kidney > ExtremeRisk)
  }

  /** The undivided weighted sum, floored at 0.9 when any of the three scores exceeds 0.9. */
  function CombinedRiskSum(heart: real, kidney: real, diabetes: real): (r: real)
    ensures r >= WeightedSum(heart, kidney, diabetes)
    ensures heart > ExtremeRisk || kidney > ExtremeRisk || diabetes > ExtremeRisk ==> r >= ExtremeRisk
    ensures heart <= ExtremeRisk && kidney <= ExtremeRisk && diabetes <= ExtremeRisk
            ==> r == WeightedSum(heart, kidney, diabetes)
    ensures heart > ExtremeRisk || kidney > ExtremeRisk || diabetes > ExtremeRisk
            ==> r == AtLeastExtreme(WeightedSum(heart, kidney, diabetes))
    ensures r == WeightedSum(heart, kidney, diabetes) || r == ExtremeRisk
  {
    OverrideFloor(WeightedSum(heart, kidney, diabetes),
                  heart > ExtremeRisk || kidney > ExtremeRisk || diabetes > ExtremeRisk)
  }

  predicate InUnitInterval(v: real) {
    0.0 <= v <= 1.0
  }

  /** Scores in [0, 1] give composites in [0, 1], under either variant. */
  lemma CombinedRiskInUnitInterval(heart: real, kidney: real, diabetes: real)
    requires InUnitInterval(heart) && InUnitInterval(kidney) && InUnitInterval(diabetes)
    ensures InUnitInterval(CombinedRiskMean(heart, kidney, diabetes))
    ensures InUnitInterval(CombinedRiskSum(heart, kidney, diabetes))
  {
    assert TotalWeight() == 1.0;
  }

  /** The undivided sum is the weighted mean only because the weights add up
      to 1, so the variants agree unless the metabolic score alone is extreme. */
  lemma VariantsAgreeWithoutExtremeDiabetes(heart: real, kidney: real, diabetes: real)
    requires diabetes <= ExtremeRisk || heart > ExtremeRisk || kidney > ExtremeRisk
    ensures TotalWeight() == 1.0
    ensures CombinedRiskMean(heart, kidney, diabetes) == CombinedRiskSum(heart, kidney, diabetes)
  {
  }

  /** ...and they disagree when it is: an extreme metabolic score is floored
      by the sum variant and diluted by the mean variant. */
  lemma VariantsDisagreeOnExtremeDiabetes(heart: real, kidney: real, diabetes: real)
    requires heart <= ExtremeRisk && kidney <= ExtremeRisk && diabetes > ExtremeRisk
    requires WeightedSum(heart, kidney, diabetes) < ExtremeRisk
    ensures CombinedRiskSum(heart, kidney, diabetes) == ExtremeRisk
    ensures CombinedRiskMean(heart, kidney, diabetes) < ExtremeRisk
  {
    assert TotalWeight() == 1.0;
  }

  /** Raising any score never lowers the composite, under either variant. */
  lemma CombinedRiskMonotone(h1: real, k1: real, d1: real, h2: real, k2: real, d2: real)
    requires h1 <= h2 && k1 <= k2 && d1 <= d2
    ensures CombinedRiskMean(h1, k1, d1) <= CombinedRiskMean(h2, k2, d2)
    ensures CombinedRiskSum(h1, k1, d1) <= CombinedRiskSum(h2, k2, d2)
  {
    assert WeightedSum(h1, k1, d1) <= WeightedSum(h2, k2, d2);
  }

  /** Equal scores give that score back; one extreme cardiac score among low ones is floored to 0.9. */
  lemma CombinedRiskExamples()
    ensures CombinedRiskMean(0.4, 0.4, 0.4) == 0.4
    ensures CombinedRiskMean(0.95, 0.1, 0.1) == 0.9
    ensures CombinedRiskSum(0.95, 0.1, 0.1) == 0.9
  {
  }
}
