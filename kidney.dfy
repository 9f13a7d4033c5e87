/** Renal risk: the seven-factor heuristic used when no kidney classifier is
    usable, and the classifier's probability otherwise. */
module KidneyRisk {
  import opened Basics

  /** The seven fields the heuristic reads. */
  datatype KidneyInput = KidneyInput(age: real, bp: real, al: real, su: real, bgr: real, bu: real, sc: real)

  const KidneyFields: seq<string> := ["age", "bp", "al", "su", "bgr", "bu", "sc"]

  /** Each field is `float(form.get(name, 0))`: an absent field reads as 0, and a
      malformed one raises, so that the step stores no score at all. */
  function KidneyFromForm(form: Form): (r: Option<KidneyInput>)
    ensures r.None? <==> exists i | 0 <= i < |KidneyFields| :: Lookup(form, KidneyFields[i]).Malformed?
    ensures r.Some? ==> ReadsAs(Lookup(form, "age"), 0.0, r.value.age)
    ensures r.Some? ==> ReadsAs(Lookup(form, "bp"), 0.0, r.value.bp)
    ensures r.Some? ==> ReadsAs(Lookup(form, "al"), 0.0, r.value.al)
    ensures r.Some? ==> ReadsAs(Lookup(form, "su"), 0.0, r.value.su)
    ensures r.Some? ==> ReadsAs(Lookup(form, "bgr"), 0.0, r.value.bgr)
    ensures r.Some? ==> ReadsAs(Lookup(form, "bu"), 0.0, r.value.bu)
    ensures r.Some? ==> ReadsAs(Lookup(form, "sc"), 0.0, r.value.sc)
  {
    if exists i | 0 <= i < |KidneyFields| :: Lookup(form, KidneyFields[i]).Malformed? then None
    else Some(KidneyInput(
      NumberOrZero(form, "age"), NumberOrZero(form, "bp"), NumberOrZero(form, "al"),
      NumberOrZero(form, "su"), NumberOrZero(form, "bgr"), NumberOrZero(form, "bu"),
      NumberOrZero(form, "sc")))
  }

  /** The heuristic's score before jitter: seven fixed increments, which add up to exactly 1. */
  function KidneyRuleScore(x: KidneyInput): (s: real)
    ensures 0.0 <= s <= 1.0
  {
    (if x.age > 60.0 then 0.2 else 0.0)
    + (if x.bp > 140.0 then 0.15 else 0.0)
    + (if x.al > 1.0 then 0.15 else 0.0)
    + (if x.su > 1.0 then 0.1 else 0.0)
    + (if x.bgr > 200.0 then 0.1 else 0.0)
    + (if x.bu > 100.0 then 0.15 else 0.0)
    + (if x.sc > 1.5 then 0.15 else 0.0)
  }

  /** The heuristic's score, accumulated step by step as the route does. */
  method ComputeKidneyRuleScore(x: KidneyInput) returns (riskScore: real)
    ensures riskScore == KidneyRuleScore(x)
    ensures 0.0 <= riskScore <= 1.0
  {
    riskScore := 0.0;
    if x.age > 60.0 {
      riskScore := riskScore + 0.2;
    }
    if x.bp > 140.0 {
      riskScore := riskScore + 0.15;
    }
    if x.al > 1.0 {
      riskScore := riskScore + 0.15;
    }
    if x.su > 1.0 {
      riskScore := riskScore + 0.1;
    }
    if x.bgr > 200.0 {
      riskScore := riskScore + 0.1;
    }
    if x.bu > 100.0 {
      riskScore := riskScore + 0.15;
    }
    if x.sc > 1.5 {
      riskScore := riskScore + 0.15;
    }
  }

  /** All seven factors present reach the bound 1 exactly; none present gives 0. */
  lemma KidneyRuleScoreExtremes(x: KidneyInput)
    ensures (x.age > 60.0 && x.bp > 140.0 && x.al > 1.0 && x.su > 1.0 && x.bgr > 200.0
             && x.bu > 100.0 && x.sc > 1.5) ==> KidneyRuleScore(x) == 1.0
    ensures (x.age <= 60.0 && x.bp <= 140.0 && x.al <= 1.0 && x.su <= 1.0 && x.bgr <= 200.0
             && x.bu <= 100.0 && x.sc <= 1.5) ==> KidneyRuleScore(x) == 0.0
  {
  }

  /** The prediction stored for the renal step: the classifier's probability
      when one is usable, the clamped heuristic with jitter in [-0.1, 0.1] when
      not, and nothing when the classifier raises. */
  function KidneyPrediction(x: KidneyInput, model: ModelResult, jitter: real): (r: Option<real>)
    requires JitterWithin(jitter, 0.1)
    ensures r.None? <==> model.Failed?
    ensures model.NoModel? ==> 0.0 <= r.value <= 1.0
    ensures model.NoModel? && 0.0 <= KidneyRuleScore(x) + jitter <= 1.0 ==> r == Some(KidneyRuleScore(x) + jitter)
    ensures model.NoModel? && KidneyRuleScore(x) + jitter > 1.0 ==> r == Some(1.0)
    ensures model.NoModel? && KidneyRuleScore(x) + jitter < 0.0 ==> r == Some(0.0)
    ensures model.Probability? ==> r == Some(model.p)
  {
    match model
    case NoModel => Some(Clamp(KidneyRuleScore(x) + jitter))
    case Probability(p) => Some(p)
    case Failed => None
  }

  /** The whole renal step: a malformed field or a raising classifier store no score. */
  function KidneyStep(form: Form, model: ModelResult, jitter: real): (r: Option<real>)
    requires JitterWithin(jitter, 0.1)
    ensures r.Some? <==> KidneyFromForm(form).Some? && !model.Failed?
    ensures r.Some? && model.NoModel? ==> 0.0 <= r.value <= 1.0
    ensures r.Some? ==> r == KidneyPrediction(KidneyFromForm(form).value, model, jitter)
    ensures r.Some? && model.Probability? ==> r == Some(model.p)
  {
    match KidneyFromForm(form)
    case None => None
    case Some(x) => KidneyPrediction(x, model, jitter)
  }

  /** An empty form parses to all zeros, which score nothing. */
  lemma KidneyEmptyForm()
    ensures KidneyFromForm(map[]) == Some(KidneyInput(0.0, 0.0, 0.0, 0.0, 0.0, 0.0, 0.0))
    ensures KidneyRuleScore(KidneyInput(0.0, 0.0, 0.0, 0.0, 0.0, 0.0, 0.0)) == 0.0
  {
  }

  /** Raising any field never lowers the score, before or after jitter and clamp. */
  lemma KidneyRuleScoreMonotone(x: KidneyInput, y: KidneyInput, jitter: real)
    requires x.age <= y.age && x.bp <= y.bp && x.al <= y.al && x.su <= y.su
    requires x.bgr <= y.bgr && x.bu <= y.bu && x.sc <= y.sc
    requires JitterWithin(jitter, 0.1)
    ensures KidneyRuleScore(x) <= KidneyRuleScore(y)
    ensures KidneyPrediction(x, NoModel, jitter).value <= KidneyPrediction(y, NoModel, jitter).value
  {
    ClampMonotone(KidneyRuleScore(x) + jitter, KidneyRuleScore(y) + jitter);
  }
}
