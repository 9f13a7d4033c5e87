/** Cardiac risk: the additive rule-based score, the correction applied to a
    trained model's high outputs, and the fallback used when the model raises. */
module HeartRisk {
  import opened Basics

  /** The thirteen fields of the cardiac questionnaire, after parsing. */
  datatype HeartInput = HeartInput(
    age: real, sex: real, cp: real, trestbps: real, chol: real, fbs: real,
    restecg: real, thalach: real, exang: real, oldpeak: real, slope: real,
    ca: real, thal: real)

  /** The value each field takes when it is missing or not a number. */
  const DefaultHeartInput := HeartInput(50.0, 0.0, 0.0, 120.0, 200.0, 0.0, 0.0, 150.0, 0.0, 0.0, 0.0, 0.0, 0.0)

  /** Each field reads as the submitted number, or as its own default when it
      is missing or malformed, whatever the other fields hold. */
  function HeartFromForm(form: Form): (x: HeartInput)
    ensures ReadsAs(Lookup(form, "age"), DefaultHeartInput.age, x.age)
    ensures ReadsAs(Lookup(form, "sex"), DefaultHeartInput.sex, x.sex)
    ensures ReadsAs(Lookup(form, "cp"), DefaultHeartInput.cp, x.cp)
    ensures ReadsAs(Lookup(form, "trestbps"), DefaultHeartInput.trestbps, x.trestbps)
    ensures ReadsAs(Lookup(form, "chol"), DefaultHeartInput.chol, x.chol)
    ensures ReadsAs(Lookup(form, "fbs"), DefaultHeartInput.fbs, x.fbs)
    ensures ReadsAs(Lookup(form, "restecg"), DefaultHeartInput.restecg, x.restecg)
    ensures ReadsAs(Lookup(form, "thalach"), DefaultHeartInput.thalach, x.thalach)
    ensures ReadsAs(Lookup(form, "exang"), DefaultHeartInput.exang, x.exang)
    ensures ReadsAs(Lookup(form, "oldpeak"), DefaultHeartInput.oldpeak, x.oldpeak)
    ensures ReadsAs(Lookup(form, "slope"), DefaultHeartInput.slope, x.slope)
    ensures ReadsAs(Lookup(form, "ca"), DefaultHeartInput.ca, x.ca)
    ensures ReadsAs(Lookup(form, "thal"), DefaultHeartInput.thal, x.thal)
  {
    HeartInput(
      NumberOr(Lookup(form, "age"), 50.0), NumberOr(Lookup(form, "sex"), 0.0),
      NumberOr(Lookup(form, "cp"), 0.0), NumberOr(Lookup(form, "trestbps"), 120.0),
      NumberOr(Lookup(form, "chol"), 200.0), NumberOr(Lookup(form, "fbs"), 0.0),
      NumberOr(Lookup(form, "restecg"), 0.0), NumberOr(Lookup(form, "thalach"), 150.0),
      NumberOr(Lookup(form, "exang"), 0.0), NumberOr(Lookup(form, "oldpeak"), 0.0),
      NumberOr(Lookup(form, "slope"), 0.0), NumberOr(Lookup(form, "ca"), 0.0),
      NumberOr(Lookup(form, "thal"), 0.0))
  }

  /** A form in which no field is a usable number yields the defaults, whose
      rule score is the 0.05 of the age band above 40. */
  lemma HeartFormFallsBackToDefaults(form: Form)
    requires forall name | name in form :: !form[name].Number?
    ensures HeartFromForm(form) == DefaultHeartInput
    ensures HeartRuleScore(HeartFromForm(form)) == 0.05
  {
  }

  // The points each risk factor contributes.

  function AgeTerm(age: real): real {
    if age > 60.0 then 0.15 else if age > 50.0 then 0.10 else if age > 40.0 then 0.05 else 0.0
  }

  function SexTerm(sex: real): real {
    if sex == 1.0 then 0.10 else 0.0
  }

  function ChestPainTerm(cp: real): real {
    if cp > 0.0 then 0.10 * cp else 0.0
  }

  function RestingBpTerm(trestbps: real): real {
    if trestbps > 140.0 then 0.15 else if trestbps > 130.0 then 0.10 else if trestbps > 120.0 then 0.05 else 0.0
  }

  function CholesterolTerm(chol: real): real {
    if chol > 240.0 then 0.15 else if chol > 200.0 then 0.10 else 0.0
  }

  function FastingSugarTerm(fbs: real): real {
    if fbs > 0.0 then 0.05 else 0.0
  }

  function AnginaTerm(exang: real): real {
    if exang > 0.0 then 0.20 else 0.0
  }

  function StDepressionTerm(oldpeak: real): real {
    if oldpeak > 2.0 then 0.20 else if oldpeak > 1.0 then 0.10 else 0.0
  }

  function VesselTerm(ca: real): real {
    if ca > 0.0 then 0.15 * ca else 0.0
  }

  function ThalTerm(thal: real): real {
    if thal > 2.0 then 0.15 else 0.0
  }

  /** Only the reduced score of the model correction looks at the maximum heart rate: lower is worse. */
  function MaxHeartRateTerm(thalach: real): real {
    if thalach < 120.0 then 0.15 else if thalach < 140.0 then 0.10 else 0.0
  }

  /** The rule-based score before jitter: the sum of the ten factor terms. */
  function HeartRuleScore(x: HeartInput): (s: real)
    ensures s >= 0.0
  {
    AgeTerm(x.age) + SexTerm(x.sex) + ChestPainTerm(x.cp) + RestingBpTerm(x.trestbps)
    + CholesterolTerm(x.chol) + FastingSugarTerm(x.fbs) + AnginaTerm(x.exang)
    + StDepressionTerm(x.oldpeak) + VesselTerm(x.ca) + ThalTerm(x.thal)
  }

  /** The score the model correction blends in: age, sex, chest pain, maximum
      heart rate, exercise angina and vessels only. */
  function ReducedHeartScore(x: HeartInput): (s: real)
    ensures s >= 0.0
  {
    AgeTerm(x.age) + SexTerm(x.sex) + ChestPainTerm(x.cp) + MaxHeartRateTerm(x.thalach)
    + AnginaTerm(x.exang) + VesselTerm(x.ca)
  }

  /** The rule-based score, accumulated step by step as the route does. */
  method ComputeHeartRuleScore(x: HeartInput) returns (riskScore: real)
    ensures riskScore == HeartRuleScore(x)
    ensures riskScore >= 0.0
  {
    riskScore := 0.0;
    if x.age > 60.0 {
      riskScore := riskScore + 0.15;
    } else if x.age > 50.0 {
      riskScore := riskScore + 0.10;
    } else if x.age > 40.0 {
      riskScore := riskScore + 0.05;
    }
    assert riskScore == AgeTerm(x.age);
    ghost var sum := riskScore;
    if x.sex == 1.0 {
      riskScore := riskScore + 0.10;
    }
    assert riskScore == sum + SexTerm(x.sex);
    sum := riskScore;
    if x.cp > 0.0 {
      riskScore := riskScore + 0.10 * x.cp;
    }
    assert riskScore == sum + ChestPainTerm(x.cp);
    sum := riskScore;
    if x.trestbps > 140.0 {
      riskScore := riskScore + 0.15;
    } else if x.trestbps > 130.0 {
      riskScore := riskScore + 0.10;
    } else if x.trestbps > 120.0 {
      riskScore := riskScore + 0.05;
    }
    assert riskScore == sum + RestingBpTerm(x.trestbps);
    sum := riskScore;
    if x.chol > 240.0 {
      riskScore := riskScore + 0.15;
    } else if x.chol > 200.0 {
      riskScore := riskScore + 0.10;
    }
    assert riskScore == sum + CholesterolTerm(x.chol);
    sum := riskScore;
    if x.fbs > 0.0 {
      riskScore := riskScore + 0.05;
    }
    assert riskScore == sum + FastingSugarTerm(x.fbs);
    sum := riskScore;
    if x.exang > 0.0 {
      riskScore := riskScore + 0.20;
    }
    assert riskScore == sum + AnginaTerm(x.exang);
    sum := riskScore;
    if x.oldpeak > 2.0 {
      riskScore := riskScore + 0.20;
    } else if x.oldpeak > 1.0 {
      riskScore := riskScore + 0.10;
    }
    assert riskScore == sum + StDepressionTerm(x.oldpeak);
    sum := riskScore;
    if x.ca > 0.0 {
      riskScore := riskScore + 0.15 * x.ca;
    }
    assert riskScore == sum + VesselTerm(x.ca);
    sum := riskScore;
    if x.thal > 2.0 {
      riskScore := riskScore + 0.15;
    }
    assert riskScore == sum + ThalTerm(x.thal);
  }

  /** The reduced score of the model correction, accumulated step by step. */
  method ComputeReducedHeartScore(x: HeartInput) returns (riskScore: real)
    ensures riskScore == ReducedHeartScore(x)
    ensures riskScore >= 0.0
  {
    riskScore := 0.0;
    if x.age > 60.0 {
      riskScore := riskScore + 0.15;
    } else if x.age > 50.0 {
      riskScore := riskScore + 0.10;
    } else if x.age > 40.0 {
      riskScore := riskScore + 0.05;
    }
    if x.sex == 1.0 {
      riskScore := riskScore + 0.10;
    }
    if x.cp > 0.0 {
      riskScore := riskScore + 0.10 * x.cp;
    }
    if x.thalach < 120.0 {
      riskScore := riskScore + 0.15;
    } else if x.thalach < 140.0 {
      riskScore := riskScore + 0.10;
    }
    if x.exang > 0.0 {
      riskScore := riskScore + 0.20;
    }
    if x.ca > 0.0 {
      riskScore := riskScore + 0.15 * x.ca;
    }
  }

  /** The prediction when no model is loaded: score plus jitter, clamped. */
  function HeartRulePrediction(x: HeartInput, jitter: real): (r: real)
    requires JitterWithin(jitter, 0.1)
    ensures 0.0 <= r <= 1.0
    ensures 0.0 <= HeartRuleScore(x) + jitter <= 1.0 ==> r == HeartRuleScore(x) + jitter
    ensures HeartRuleScore(x) + jitter > 1.0 ==> r == 1.0
    ensures HeartRuleScore(x) + jitter < 0.0 ==> r == 0.0
  {
    Clamp(HeartRuleScore(x) + jitter)
  }

  /** The model's raw probability, passed through when at most 0.8 and
      otherwise blended 0.3 / 0.7 with the reduced score, without a clamp. */
  function HeartModelPrediction(x: HeartInput, raw: real): (r: real)
    ensures raw <= 0.8 ==> r == raw
    ensures raw > 0.8 ==> r == 0.3 * raw + 0.7 * ReducedHeartScore(x)
    ensures raw > 0.8 && ReducedHeartScore(x) <= raw ==> ReducedHeartScore(x) <= r <= raw
    ensures raw > 0.8 && raw <= ReducedHeartScore(x) ==> raw <= r <= ReducedHeartScore(x)
  {
    if raw > 0.8 then raw * 0.3 + ReducedHeartScore(x) * 0.7 else raw
  }

  /** The factors the fallback looks at when the model raises. */
  predicate HasMajorRiskFactor(x: HeartInput) {
    x.age > 60.0 || x.chol > 240.0 || x.trestbps > 140.0 || x.exang > 0.0 || x.ca > 0.0
  }

  /** The prediction when the model raises: base 0.3, 0.2 more for any major
      factor, plus jitter, clamped. */
  function HeartErrorFallback(x: HeartInput, jitter: real): (r: real)
    requires JitterWithin(jitter, 0.1)
    ensures 0.2 <= r <= 0.6
    ensures HasMajorRiskFactor(x) <==> r >= 0.4 + jitter
    ensures r == (if HasMajorRiskFactor(x) then 0.5 else 0.3) + jitter
  {
    var riskScore := 0.3 + (if HasMajorRiskFactor(x) then 0.2 else 0.0);
    Clamp(riskScore + jitter)
  }

  /** The stored cardiac score, by what the classifier gave. */
  function HeartPrediction(x: HeartInput, model: ModelResult, jitter: real): (r: real)
    requires JitterWithin(jitter, 0.1)
    ensures model.NoModel? ==> 0.0 <= r <= 1.0
    ensures model.NoModel? && 0.0 <= HeartRuleScore(x) + jitter <= 1.0 ==> r == HeartRuleScore(x) + jitter
    ensures model.NoModel? && HeartRuleScore(x) + jitter > 1.0 ==> r == 1.0
    ensures model.NoModel? && HeartRuleScore(x) + jitter < 0.0 ==> r == 0.0
    ensures model.Probability? && model.p <= 0.8 ==> r == model.p
    ensures model.Probability? && model.p > 0.8 ==> r == 0.3 * model.p + 0.7 * ReducedHeartScore(x)
    ensures model.Failed? ==> 0.2 <= r <= 0.6
    ensures model.Failed? ==> r == (if HasMajorRiskFactor(x) then 0.5 else 0.3) + jitter
  {
    match model
    case NoModel => HeartRulePrediction(x, jitter)
    case Probability(raw) => HeartModelPrediction(x, raw)
    case Failed => HeartErrorFallback(x, jitter)
  }

  /** Every path stays in [0, 1] except the uncorrected blend: rule-based and
      fallback scores always, and a model probability when it is passed through. */
  lemma HeartPredictionInUnitInterval(x: HeartInput, model: ModelResult, jitter: real)
    requires JitterWithin(jitter, 0.1)
    requires model.Probability? ==> 0.0 <= model.p <= 0.8
    ensures 0.0 <= HeartPrediction(x, model, jitter) <= 1.0
  {
  }

  /** The blend is not clamped: a confident model and a high reduced score give
      a stored cardiac "probability" above 1. */
  lemma HeartBlendExceedsOne()
    ensures HeartPrediction(HeartInput(65.0, 1.0, 3.0, 120.0, 200.0, 0.0, 0.0, 110.0, 1.0, 0.0, 0.0, 4.0, 0.0),
                            Probability(1.0), 0.0) == 1.35
  {
  }

  /** Within the form's ranges (chest pain type 0..3, vessels 0..4) and for a
      probability at most 1, the blend is at most 1.35, the value reached above. */
  lemma HeartBlendUpperBound(x: HeartInput, raw: real)
    requires 0.0 <= x.cp <= 3.0 && 0.0 <= x.ca <= 4.0 && raw <= 1.0
    ensures ReducedHeartScore(x) <= 1.5
    ensures HeartModelPrediction(x, raw) <= 1.35
  {
  }

  /** Fields ordered by risk: everything that adds points is at least as large
      in `y`, and sex (which scores only when exactly 1) is the same. */
  predicate HeartDominates(x: HeartInput, y: HeartInput) {
    x.age <= y.age && x.sex == y.sex && x.cp <= y.cp && x.trestbps <= y.trestbps
    && x.chol <= y.chol && x.fbs <= y.fbs && x.exang <= y.exang
    && x.oldpeak <= y.oldpeak && x.ca <= y.ca && x.thal <= y.thal
  }

  /** Raising any risk field never lowers the score, before or after jitter and clamp. */
  lemma HeartRuleScoreMonotone(x: HeartInput, y: HeartInput, jitter: real)
    requires HeartDominates(x, y)
    requires JitterWithin(jitter, 0.1)
    ensures HeartRuleScore(x) <= HeartRuleScore(y)
    ensures HeartRulePrediction(x, jitter) <= HeartRulePrediction(y, jitter)
  {
    assert AgeTerm(x.age) <= AgeTerm(y.age);
    assert ChestPainTerm(x.cp) <= ChestPainTerm(y.cp);
    assert RestingBpTerm(x.trestbps) <= RestingBpTerm(y.trestbps);
    assert CholesterolTerm(x.chol) <= CholesterolTerm(y.chol);
    assert FastingSugarTerm(x.fbs) <= FastingSugarTerm(y.fbs);
    assert AnginaTerm(x.exang) <= AnginaTerm(y.exang);
    assert StDepressionTerm(x.oldpeak) <= StDepressionTerm(y.oldpeak);
    assert VesselTerm(x.ca) <= VesselTerm(y.ca);
    assert ThalTerm(x.thal) <= ThalTerm(y.thal);
    ClampMonotone(HeartRuleScore(x) + jitter, HeartRuleScore(y) + jitter);
  }

  /** The reduced score rises with age, chest pain, angina and vessels and
      falls as the maximum heart rate rises. */
  lemma ReducedHeartScoreMonotone(x: HeartInput, y: HeartInput)
    requires x.age <= y.age && x.sex == y.sex && x.cp <= y.cp && y.thalach <= x.thalach
    requires x.exang <= y.exang && x.ca <= y.ca
    ensures ReducedHeartScore(x) <= ReducedHeartScore(y)
  {
  }

  /** The form offers thalassemia as 0 Normal, 1 Fixed Defect, 2 Reversible
      Defect and 3 Unknown, while the rule adds its increment only above 2:
      a reversible defect scores like a normal result, and only "Unknown"
      raises the score. */
  lemma ThalassemiaCoding(x: HeartInput)
    ensures HeartRuleScore(x.(thal := 2.0)) == HeartRuleScore(x.(thal := 0.0))
    ensures HeartRuleScore(x.(thal := 1.0)) == HeartRuleScore(x.(thal := 0.0))
    ensures HeartRuleScore(x.(thal := 3.0)) == HeartRuleScore(x.(thal := 0.0)) + 0.15
  {
  }
}
