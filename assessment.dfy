/** The three-step assessment as the session sees it: the stored condition
    scores, the defaults used for missing ones, and the two results pages,
    each with its own combiner variant and premium table. */
module Assessment {
  import opened Basics
  import opened CompositeRisk
  import opened PremiumTiers
  import HeartRisk
  import DiabetesRisk

  /** The condition scores held in the session, each possibly not stored yet. */
  datatype StoredScores = StoredScores(heart: Option<real>, kidney: Option<real>, diabetes: Option<real>)

  const NothingStored := StoredScores(None, None, None)

  /** The results page of the top-level application: a missing score reads as
      0, the undivided sum floored at 0.9 when any of the three scores exceeds
      0.9, and the four-tier table. */
  function ResultsPage(s: StoredScores): (r: (real, Quote))
    ensures var h, k, d := s.heart.GetOr(0.0), s.kidney.GetOr(0.0), s.diabetes.GetOr(0.0);
      && r.0 == CombinedRiskSum(h, k, d)
      && (h <= ExtremeRisk && k <= ExtremeRisk && d <= ExtremeRisk ==> r.0 == WeightedSum(h, k, d))
      && (h > ExtremeRisk || k > ExtremeRisk || d > ExtremeRisk ==> r.0 == AtLeastExtreme(WeightedSum(h, k, d)))
    ensures r.1 == PremiumFourTier(r.0)
  {
    var risk := CombinedRiskSum(s.heart.GetOr(0.0), s.kidney.GetOr(0.0), s.diabetes.GetOr(0.0));
    (risk, PremiumFourTier(risk))
  }

  /** The composite stored after the metabolic step: a missing cardiac or
      renal score reads as 0.5, combined with the new metabolic score by the
      weighted mean, floored at 0.9 only by the cardiac or renal score. */
  function DiabetesStepComposite(s: StoredScores, prediction: real): (r: real)
    ensures var h, k := s.heart.GetOr(0.5), s.kidney.GetOr(0.5);
      && r == CombinedRiskMean(h, k, prediction)
      && (h <= ExtremeRisk && k <= ExtremeRisk ==> r == WeightedSum(h, k, prediction) / TotalWeight())
      && (h > ExtremeRisk || k > ExtremeRisk ==> r == AtLeastExtreme(WeightedSum(h, k, prediction) / TotalWeight()))
  {
    CombinedRiskMean(s.heart.GetOr(0.5), s.kidney.GetOr(0.5), prediction)
  }

  /** The combined results page of the model application: unless all three
      scores are stored it redirects (None); otherwise the weighted mean,
      floored at 0.9 only by the cardiac or renal score, and the ten-tier table. */
  function CombinedResultsPage(s: StoredScores): (r: Option<(real, Quote)>)
    ensures r.None? <==> s.heart.None? || s.kidney.None? || s.diabetes.None?
    ensures r.Some? ==>
      var h, k, d := s.heart.value, s.kidney.value, s.diabetes.value;
      && r.value.0 == CombinedRiskMean(h, k, d)
      && (h <= ExtremeRisk && k <= ExtremeRisk ==> r.value.0 == WeightedSum(h, k, d) / TotalWeight())
      && (h > ExtremeRisk || k > ExtremeRisk ==> r.value.0 == AtLeastExtreme(WeightedSum(h, k, d) / TotalWeight()))
    ensures r.Some? ==> r.value.1 == PremiumTenTier(r.value.0)
  {
    if s.heart.None? || s.kidney.None? || s.diabetes.None? then None
    else
      var risk := CombinedRiskMean(s.heart.value, s.kidney.value, s.diabetes.value);
      Some((risk, PremiumTenTier(risk)))
  }

  /** The whole metabolic step: a malformed field among the nineteen stores
      nothing; otherwise the metabolic score and the composite stored with it. */
  function DiabetesStep(s: StoredScores, form: Form, modelLoaded: bool, jitter: real): (r: Option<(real, real)>)
    requires JitterWithin(jitter, 0.05)
    ensures r.None? <==> DiabetesRisk.DiabetesFromForm(form).None?
    ensures r.Some? ==> r.value.0 == DiabetesRisk.DiabetesPrediction(DiabetesRisk.DiabetesFromForm(form).value, modelLoaded, jitter)
    ensures r.Some? ==> 0.0 <= r.value.0 <= 1.0
    ensures r.Some? ==> r.value.1 == DiabetesStepComposite(s, r.value.0)
  {
    match DiabetesRisk.DiabetesFromForm(form)
    case None => None
    case Some(x) =>
      var prediction := DiabetesRisk.DiabetesPrediction(x, modelLoaded, jitter);
      Some((prediction, DiabetesStepComposite(s, prediction)))
  }

  /** Once the cardiac and renal scores are stored, the composite stored by the
      metabolic step is the one the combined results page shows. */
  lemma StoredCompositeIsShown(s: StoredScores, prediction: real)
    requires s.heart.Some? && s.kidney.Some?
    ensures CombinedResultsPage(s.(diabetes := Some(prediction))).Some?
    ensures CombinedResultsPage(s.(diabetes := Some(prediction))).value.0 == DiabetesStepComposite(s, prediction)
  {
  }

  /** With all three scores stored, both pages show the same composite unless
      the metabolic score alone exceeds 0.9; only the premium table differs. */
  lemma PagesAgreeUnlessMetabolicAloneExtreme(s: StoredScores)
    requires s.heart.Some? && s.kidney.Some? && s.diabetes.Some?
    requires s.diabetes.value <= ExtremeRisk || s.heart.value > ExtremeRisk || s.kidney.value > ExtremeRisk
    ensures CombinedResultsPage(s).Some?
    ensures ResultsPage(s).0 == CombinedResultsPage(s).value.0
  {
    VariantsAgreeWithoutExtremeDiabetes(s.heart.value, s.kidney.value, s.diabetes.value);
  }

  /** The two applications fill missing scores differently: with nothing
      stored, the results page reads 0 (Low), while the metabolic step reads
      0.5 for both earlier scores, giving 0.4 plus a fifth of its own score.
      A stored metabolic score alone gives a fifth of it on the results page,
      unless it exceeds 0.9, which floors the page's composite at 0.9. */
  lemma MissingScoreDefaults(prediction: real)
    ensures ResultsPage(NothingStored) == (0.0, Quote("Low", 320, 490))
    ensures DiabetesStepComposite(NothingStored, prediction) == 0.4 + 0.2 * prediction
    ensures prediction <= ExtremeRisk ==> ResultsPage(StoredScores(None, None, Some(prediction))).0 == 0.2 * prediction
    ensures ExtremeRisk < prediction <= 1.0 ==> ResultsPage(StoredScores(None, None, Some(prediction))).0 == ExtremeRisk
  {
  }

  /** One extreme cardiac score among low ones: both pages floor the composite
      at 0.9, and both tables call 90% "Critical" (the inclusive bound). */
  lemma ExtremeCardiacScenario()
    ensures ResultsPage(StoredScores(Some(0.95), Some(0.1), Some(0.1))) == (0.9, Quote("Critical", 1600, 2800))
    ensures CombinedResultsPage(StoredScores(Some(0.95), Some(0.1), Some(0.1)))
            == Some((0.9, Quote("Critical", 83000, 93000)))
  {
    PremiumTenTierBoundaries(0.9);
  }

  /** An extreme metabolic score alone: the results page floors it at 0.9,
      the combined results page dilutes it to 0.19 ("Low"). */
  lemma ExtremeMetabolicScenario()
    ensures ResultsPage(StoredScores(Some(0.0), Some(0.0), Some(0.95))).0 == 0.9
    ensures CombinedResultsPage(StoredScores(Some(0.0), Some(0.0), Some(0.95)))
            == Some((0.19, Quote("Low", 13000, 23000)))
  {
  }

  /** The unclamped cardiac blend reaches the composite: a stored cardiac
      score of 1.35 with the other two at 1 gives a composite above 1. */
  lemma BlendedCardiacScoreBreaksCompositeBound()
    ensures var x := HeartRisk.HeartInput(65.0, 1.0, 3.0, 120.0, 200.0, 0.0, 0.0, 110.0, 1.0, 0.0, 0.0, 4.0, 0.0);
            var h := HeartRisk.HeartPrediction(x, Probability(1.0), 0.0);
            CombinedResultsPage(StoredScores(Some(h), Some(1.0), Some(1.0))).value.0 == 1.175
  {
    HeartRisk.HeartBlendExceedsOne();
  }
}
