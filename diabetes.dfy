/** Metabolic risk: the eleven-factor heuristic, and the placeholder constant
    used when a diabetes model is loaded. */
module DiabetesRisk {
  import opened Basics

  /** The eleven fields the heuristic reads (the form has nineteen). */
  datatype DiabetesInput = DiabetesInput(
    highbp: real, highchol: real, bmi: real, smoker: real, stroke: real,
    heartdisease: real, physactivity: real, fruits: real, veggies: real,
    genhlth: real, age: real)

  /** Every field the route parses, read or not; a malformed one among them
      raises before any score is computed. */
  const DiabetesFormFields: seq<string> := [
    "highbp", "highchol", "cholcheck", "bmi", "smoker", "stroke", "heartdisease",
    "physactivity", "fruits", "veggies", "alcohol", "healthcare", "nodoc",
    "genhlth", "menthlth", "physhlth", "diffwalk", "sex", "age"]

  function DiabetesFromForm(form: Form): (r: Option<DiabetesInput>)
    ensures r.None? <==> exists i | 0 <= i < |DiabetesFormFields| :: Lookup(form, DiabetesFormFields[i]).Malformed?
    ensures r.Some? ==> ReadsAs(Lookup(form, "highbp"), 0.0, r.value.highbp)
    ensures r.Some? ==> ReadsAs(Lookup(form, "highchol"), 0.0, r.value.highchol)
    ensures r.Some? ==> ReadsAs(Lookup(form, "bmi"), 0.0, r.value.bmi)
    ensures r.Some? ==> ReadsAs(Lookup(form, "smoker"), 0.0, r.value.smoker)
    ensures r.Some? ==> ReadsAs(Lookup(form, "stroke"), 0.0, r.value.stroke)
    ensures r.Some? ==> ReadsAs(Lookup(form, "heartdisease"), 0.0, r.value.heartdisease)
    ensures r.Some? ==> ReadsAs(Lookup(form, "physactivity"), 0.0, r.value.physactivity)
    ensures r.Some? ==> ReadsAs(Lookup(form, "fruits"), 0.0, r.value.fruits)
    ensures r.Some? ==> ReadsAs(Lookup(form, "veggies"), 0.0, r.value.veggies)
    ensures r.Some? ==> ReadsAs(Lookup(form, "genhlth"), 0.0, r.value.genhlth)
    ensures r.Some? ==> ReadsAs(Lookup(form, "age"), 0.0, r.value.age)
  {
    if exists i | 0 <= i < |DiabetesFormFields| :: Lookup(form, DiabetesFormFields[i]).Malformed? then None
    else Some(DiabetesInput(
      NumberOrZero(form, "highbp"), NumberOrZero(form, "highchol"), NumberOrZero(form, "bmi"),
      NumberOrZero(form, "smoker"), NumberOrZero(form, "stroke"), NumberOrZero(form, "heartdisease"),
      NumberOrZero(form, "physactivity"), NumberOrZero(form, "fruits"), NumberOrZero(form, "veggies"),
      NumberOrZero(form, "genhlth"), NumberOrZero(form, "age")))
  }

  /** The heuristic's score before jitter: eleven increments adding up to at most 1.31. */
  function DiabetesRuleScore(x: DiabetesInput): (s: real)
    ensures 0.0 <= s <= 1.31
  {
    (if x.highbp > 0.0 then 0.15 else 0.0)
    + (if x.highchol > 0.0 then 0.15 else 0.0)
    + (if x.bmi >= 30.0 then 0.15 else 0.0)
    + (if x.smoker > 0.0 then 0.10 else 0.0)
    + (if x.stroke > 0.0 then 0.20 else 0.0)
    + (if x.heartdisease > 0.0 then 0.20 else 0.0)
    + (if x.physactivity == 0.0 then 0.05 else 0.0)
    + (if x.fruits == 0.0 then 0.03 else 0.0)
    + (if x.veggies == 0.0 then 0.03 else 0.0)
    + (if x.genhlth > 3.0 then 0.10 else 0.0)
    + (if x.age > 7.0 then 0.15 else 0.0)
  }

  /** The heuristic's score, accumulated step by step as the route does. */
  method ComputeDiabetesRuleScore(x: DiabetesInput) returns (riskScore: real)
    ensures riskScore == DiabetesRuleScore(x)
    ensures 0.0 <= riskScore <= 1.31
  {
    riskScore := 0.0;
    if x.highbp > 0.0 {
      riskScore := riskScore + 0.15;
    }
    assert riskScore == (if x.highbp > 0.0 then 0.15 else 0.0);
    ghost var sum := riskScore;
    if x.highchol > 0.0 {
      riskScore := riskScore + 0.15;
    }
    assert riskScore == sum + (if x.highchol > 0.0 then 0.15 else 0.0);
    sum := riskScore;
    if x.bmi >= 30.0 {
      riskScore := riskScore + 0.15;
    }
    assert riskScore == sum + (if x.bmi >= 30.0 then 0.15 else 0.0);
    sum := riskScore;
    if x.smoker > 0.0 {
      riskScore := riskScore + 0.10;
    }
    assert riskScore == sum + (if x.smoker > 0.0 then 0.10 else 0.0);
    sum := riskScore;
    if x.stroke > 0.0 {
      riskScore := riskScore + 0.20;
    }
    assert riskScore == sum + (if x.stroke > 0.0 then 0.20 else 0.0);
    sum := riskScore;
    if x.heartdisease > 0.0 {
      riskScore := riskScore + 0.20;
    }
    assert riskScore == sum + (if x.heartdisease > 0.0 then 0.20 else 0.0);
    sum := riskScore;
    if x.physactivity == 0.0 {
      riskScore := riskScore + 0.05;
    }
    assert riskScore == sum + (if x.physactivity == 0.0 then 0.05 else 0.0);
    sum := riskScore;
    if x.fruits == 0.0 {
      riskScore := riskScore + 0.03;
    }
    assert riskScore == sum + (if x.fruits == 0.0 then 0.03 else 0.0);
    sum := riskScore;
    if x.veggies == 0.0 {
      riskScore := riskScore + 0.03;
    }
    assert riskScore == sum + (if x.veggies == 0.0 then 0.03 else 0.0);
    sum := riskScore;
    if x.genhlth > 3.0 {
      riskScore := riskScore + 0.10;
    }
    assert riskScore == sum + (if x.genhlth > 3.0 then 0.10 else 0.0);
    sum := riskScore;
    if x.age > 7.0 {
      riskScore := riskScore + 0.15;
    }
    assert riskScore == sum + (if x.age > 7.0 then 0.15 else 0.0);
  }

  /** The bound 1.31 is reached when every factor is present. */
  lemma DiabetesRuleScoreMaximum()
    ensures DiabetesRuleScore(DiabetesInput(1.0, 1.0, 30.0, 1.0, 1.0, 1.0, 0.0, 0.0, 0.0, 4.0, 8.0)) == 1.31
  {
  }

  /** The stored metabolic score: 0.5 when a model is loaded (the source has no
      trained diabetes model and uses this constant), otherwise the clamped
      heuristic with jitter in [-0.05, 0.05]. */
  function DiabetesPrediction(x: DiabetesInput, modelLoaded: bool, jitter: real): (r: real)
    requires JitterWithin(jitter, 0.05)
    ensures 0.0 <= r <= 1.0
    ensures modelLoaded ==> r == 0.5
    ensures !modelLoaded && 0.0 <= DiabetesRuleScore(x) + jitter <= 1.0 ==> r == DiabetesRuleScore(x) + jitter
    ensures !modelLoaded && DiabetesRuleScore(x) + jitter > 1.0 ==> r == 1.0
    ensures !modelLoaded && DiabetesRuleScore(x) + jitter < 0.0 ==> r == 0.0
  {
    if modelLoaded then 0.5 else Clamp(DiabetesRuleScore(x) + jitter)
  }

  /** Raising a risk field never lowers the score; the three "absent habit"
      fields score only when exactly 0, so they are held fixed. */
  lemma DiabetesRuleScoreMonotone(x: DiabetesInput, y: DiabetesInput, jitter: real)
    requires x.highbp <= y.highbp && x.highchol <= y.highchol && x.bmi <= y.bmi
    requires x.smoker <= y.smoker && x.stroke <= y.stroke && x.heartdisease <= y.heartdisease
    requires x.physactivity == y.physactivity && x.fruits == y.fruits && x.veggies == y.veggies
    requires x.genhlth <= y.genhlth && x.age <= y.age
    requires JitterWithin(jitter, 0.05)
    ensures DiabetesRuleScore(x) <= DiabetesRuleScore(y)
    ensures DiabetesPrediction(x, false, jitter) <= DiabetesPrediction(y, false, jitter)
  {
    ClampMonotone(DiabetesRuleScore(x) + jitter, DiabetesRuleScore(y) + jitter);
  }
}
