# CardiaLink risk pipeline in Dafny

CardiaLink is a three-step health questionnaire: cardiac, then renal, then
metabolic. Each step turns its form into a risk probability. It uses a trained
classifier when one is usable, and an additive rule-based score otherwise. The
results page combines the three scores into a weighted composite and maps it
to a named tier with a premium range.

This project models that decision logic over Dafny `real`:

- `basics.dfy` (`Basics`): form fields (absent, malformed or a number), the clamp
  `min(1.0, max(0.0, v))`, jitter bounds, and the three outcomes of a
  classifier call (no usable model, a probability, an exception).
- `heart.dfy` (`HeartRisk`): the thirteen-field cardiac form with its per-field
  defaults. It also holds the ten-factor rule score and the reduced six-factor
  score used to correct high model outputs. The 0.3/0.7 blend of model output
  above 0.8, the fallback used when the model raises, and the route's choice
  between these paths are here too.
- `kidney.dfy` (`KidneyRisk`): the seven-factor renal heuristic, and the renal
  step. In that step a malformed field, or a classifier that raises, leaves no
  score stored.
- `diabetes.dfy` (`DiabetesRisk`): the eleven-factor metabolic heuristic with its
  narrower jitter, and the 0.5 placeholder used when a diabetes model is loaded.
- `features.dfy` (`FeatureVectors`): the two loops that build the kidney
  classifier's input vector.
- `composite.dfy` (`CompositeRisk`): the weights 0.50/0.30/0.20 and both combiner
  variants. One is a weighted mean whose 0.9 floor is triggered by the cardiac
  or renal score only. The other is an undivided weighted sum whose floor is
  triggered by any of the three.
- `premium.dfy` (`PremiumTiers`): the four-tier and the ten-tier premium tables.
  Each is modelled twice: as the if/elif chain it is in the source, and as
  data read by a generic first-match lookup.
- `assessment.dfy` (`Assessment`): the stored scores, the defaults for missing
  ones (0 on the results page, 0.5 in the metabolic step's composite), and the
  two results pages. The combined results page redirects when any score is
  missing, so its own 0.5 defaults never take effect.

Each heuristic appears twice. A method accumulates the score with `+=`
exactly as the route does. A function defines the same score as a sum of
per-factor terms. The method's postcondition ties the two together, and the
bounds and monotonicity lemmas are proved about the function.

Jitter (`random.uniform`) and classifier outputs are parameters. Jitter is
bounded by a precondition: ±0.1 for cardiac and renal, ±0.05 for metabolic.

These behaviours of the source are stated as they are, not corrected:

- The cardiac blend for model outputs above 0.8 is not clamped. Within the
  form's ranges it can reach 1.35 (`HeartBlendExceedsOne`,
  `HeartBlendUpperBound`). A composite built from such a score can exceed 1
  (`BlendedCardiacScoreBreaksCompositeBound`).
- The two combiner variants disagree when only the metabolic score is above
  0.9 and the weighted sum is below 0.9: the sum variant floors the result at
  0.9 and the mean variant does not (`VariantsDisagreeOnExtremeDiabetes`,
  `ExtremeMetabolicScenario`). When the weighted sum is already at least 0.9,
  both give that sum.
- The results page reads a missing score as 0 and the metabolic step reads a
  missing cardiac or renal score as 0.5 (`MissingScoreDefaults`). The combined
  results page redirects before its own 0.5 defaults apply
  (`CombinedResultsPage`).
- The cardiac rule adds its thalassemia increment for codes above 2, but the
  form codes "Reversible Defect" as 2 and "Unknown" as 3. A reversible defect
  therefore adds nothing, and only "Unknown" raises the score
  (`ThalassemiaCoding`). The comment beside the rule calls codes above 2 a
  reversible defect; the model follows the code.
- The comments beside the cardiac correction describe a 50/50 weighting of the
  model and the rule score, but the code blends 0.3 of the model output with
  0.7 of the reduced score. The model follows the code (`HeartModelPrediction`).

The source's doc comments describe the tiers as "1-10%", "51-65%" and so on.
The code uses inclusive upper bounds with no gaps, and the model follows the
code: exactly 50% is "Low" in the four-tier table, and 90% is "Critical" in
the ten-tier one.

## Model

| member | source | states |
|---|---|---|
| Basics.Clamp | src/components/model/predict.py:3048 | the clamped value lies in [0, 1], equals the input when the input is already in [0, 1], and is 0 below and 1 above |
| Basics.ClampMonotone | src/components/model/predict.py:3048 | clamping preserves order |
| Basics.GetNumber | src/components/model/predict.py:3144-3150 | `float(form.get(name, 0))`: an absent field reads as 0, a submitted number reads as itself, and the read fails exactly when the field is malformed |
| HeartRisk.HeartFormFallsBackToDefaults | src/components/model/predict.py:2922-2986 | a form with no usable number yields the documented defaults (age 50, blood pressure 120, cholesterol 200, heart rate 150, rest 0), whose rule score is 0.05 |
| HeartRisk.HeartFromForm | src/components/model/predict.py:2922-2986 | each of the thirteen fields is the submitted number when there is one, and otherwise its own default (age 50, blood pressure 120, cholesterol 200, maximum heart rate 150, every other field 0), for a missing and a malformed field alike |
| HeartRisk.HeartRuleScore | src/components/model/predict.py:2993-3045 | the ten-factor cardiac score before jitter is never negative |
| HeartRisk.ComputeHeartRuleScore | src/components/model/predict.py:2993-3045 | the step-by-step accumulation equals the sum of the ten per-factor terms (age, sex, chest pain, blood pressure, cholesterol, sugar, angina, ST depression, vessels, thalassemia) |
| HeartRisk.ReducedHeartScore | src/components/model/predict.py:3064-3094 | the reduced correction score is never negative |
| HeartRisk.ComputeReducedHeartScore | src/components/model/predict.py:3064-3094 | the step-by-step accumulation equals the sum of the six correction terms, including maximum heart rate and excluding blood pressure, cholesterol, sugar, ST depression and thalassemia |
| HeartRisk.HeartRulePrediction | src/components/model/predict.py:3048 | for every jitter in [-0.1, 0.1] the rule-based prediction lies in [0, 1]: it is score plus jitter when that is in range, 1 when above and 0 when below |
| HeartRisk.HeartModelPrediction | src/components/model/predict.py:3061-3100 | a model output at most 0.8 passes through unchanged; above 0.8 the result is exactly 0.3 times the output plus 0.7 times the reduced score, so it lies between the two |
| HeartRisk.HeartErrorFallback | src/components/model/predict.py:3106-3112 | when the model raises, the prediction is 0.5 plus jitter if age > 60, cholesterol > 240, blood pressure > 140, angina or vessels are present, and 0.3 plus jitter otherwise; it always lies in [0.2, 0.6] |
| HeartRisk.HeartPrediction | src/components/model/predict.py:2990-3112 | the route's three paths: without a usable model the result is the rule score plus jitter, saturated at 0 and 1, and always in [0, 1]; a model probability at most 0.8 is stored as it is and one above 0.8 becomes 0.3 times it plus 0.7 times the reduced score; a raising model gives 0.5 or 0.3 plus jitter according to the major risk factors, within [0.2, 0.6] |
| HeartRisk.HeartPredictionInUnitInterval | src/components/model/predict.py:2990-3112 | the rule path, the fallback path and the pass-through of a probability at most 0.8 all give a score in [0, 1] |
| HeartRisk.HeartBlendExceedsOne | src/components/model/predict.py:3061-3097 | with chest pain 3, four vessels, age 65, male, angina, heart rate 110 and model output 1, the stored cardiac score is 1.35: the blend is not clamped |
| HeartRisk.HeartBlendUpperBound | src/components/model/predict.py:3061-3097 | with chest pain in 0..3, vessels in 0..4 and model output at most 1, the reduced score is at most 1.5 and the blend at most 1.35 |
| HeartRisk.HeartRuleScoreMonotone | src/components/model/predict.py:2996-3048 | raising age, chest pain, blood pressure, cholesterol, sugar, angina, ST depression, vessels or thalassemia never lowers the score, before or after jitter and clamp |
| HeartRisk.ReducedHeartScoreMonotone | src/components/model/predict.py:3064-3094 | the reduced score rises with age, chest pain, angina and vessels, and falls as maximum heart rate rises |
| HeartRisk.ThalassemiaCoding | src/components/model/predict.py:1166-1170 | with every other field fixed, the form's "Reversible Defect" (2) and "Fixed Defect" (1) score the same as "Normal" (0); only "Unknown" (3) adds the 0.15 thalassemia increment of line 3044 |
| KidneyRisk.KidneyFromForm | src/components/model/predict.py:3144-3150 | the renal form parses exactly when none of its seven fields is malformed, and then each field is the submitted number, or 0 when it is absent |
| KidneyRisk.KidneyRuleScore | src/components/model/predict.py:3202-3216 | the seven-increment renal score lies in [0, 1] |
| KidneyRisk.ComputeKidneyRuleScore | src/components/model/predict.py:3202-3216 | the step-by-step accumulation equals the seven-increment sum and lies in [0, 1] |
| KidneyRisk.KidneyRuleScoreExtremes | src/components/model/predict.py:3202-3216 | all seven factors present give exactly 1, none present give 0 |
| KidneyRisk.KidneyPrediction | src/components/model/predict.py:3156-3220 | the classifier's probability is stored as it is; without a usable classifier the heuristic is the seven-increment score plus jitter, saturated at 0 and 1; a raising classifier stores nothing |
| KidneyRisk.KidneyStep | src/components/model/predict.py:3141-3233 | a score is stored exactly when the form parses and the classifier does not raise; the stored score is the prediction for the parsed form: the classifier's probability as it is, or the heuristic in [0, 1] |
| KidneyRisk.KidneyEmptyForm | src/components/model/predict.py:3144-3150 | an empty form parses to all zeros, which score 0 |
| KidneyRisk.KidneyRuleScoreMonotone | src/components/model/predict.py:3202-3220 | raising any renal field never lowers the score, before or after jitter and clamp |
| DiabetesRisk.DiabetesFromForm | src/components/model/predict.py:3253-3271 | the metabolic form parses exactly when none of its nineteen fields is malformed, and then each of the eleven scored fields is the submitted number, or 0 when it is absent |
| DiabetesRisk.DiabetesRuleScore | src/components/model/predict.py:3320-3342 | the eleven-increment metabolic score lies in [0, 1.31] |
| DiabetesRisk.ComputeDiabetesRuleScore | src/components/model/predict.py:3320-3342 | the step-by-step accumulation equals the eleven-increment sum and lies in [0, 1.31] |
| DiabetesRisk.DiabetesRuleScoreMaximum | src/components/model/predict.py:3320-3342 | the bound 1.31 is reached when every factor is present |
| DiabetesRisk.DiabetesPrediction | src/components/model/predict.py:3277-3345 | with a model loaded the score is the placeholder 0.5; otherwise, for jitter in [-0.05, 0.05], it is the heuristic plus jitter, saturated at 0 and 1; either way it lies in [0, 1] |
| DiabetesRisk.DiabetesRuleScoreMonotone | src/components/model/predict.py:3320-3345 | raising a risk field never lowers the score, with the activity, fruit and vegetable flags held fixed |
| FeatureVectors.CollectKidneyInputs | src/components/model/predict.py:3158-3182 | the collected inputs hold exactly the offered fields that are classifier features, each with its submitted value or 0 when absent or malformed |
| FeatureVectors.AssembleFeatures | src/components/model/predict.py:3185-3190 | the vector has one entry per feature name, in order: the collected value, or 0 when not collected |
| FeatureVectors.KidneyFeatureVector | src/components/model/predict.py:3156-3190 | entry i is the submitted value of feature i when the route offers that field, and 0 otherwise |
| CompositeRisk.TotalWeight | src/components/model/predict.py:44-46 | the weight total is positive, so the mean is defined |
| CompositeRisk.OverrideFloor | predict.py:503-504 | the override never lowers the risk, floors it at 0.9 when triggered, leaves it unchanged otherwise, and yields either the risk or 0.9 |
| CompositeRisk.CombinedRiskMean | src/components/model/predict.py:3356-3368 | the result is exactly the weighted mean, whatever the metabolic score, unless the cardiac or renal score exceeds 0.9; then it is the larger of the mean and 0.9; it is always either the mean or 0.9 |
| CompositeRisk.CombinedRiskSum | predict.py:493-504 | the result is exactly the undivided weighted sum unless any of the three scores exceeds 0.9; then it is the larger of the sum and 0.9; it is always either the sum or 0.9 |
| CompositeRisk.CombinedRiskInUnitInterval | src/components/model/predict.py:3403-3415 | scores in [0, 1] give a composite in [0, 1] under both variants |
| CompositeRisk.VariantsAgreeWithoutExtremeDiabetes | predict.py:493-504 | the weights sum to 1, so the sum variant equals the mean variant unless the metabolic score alone exceeds 0.9 |
| CompositeRisk.VariantsDisagreeOnExtremeDiabetes | src/components/model/predict.py:3403-3415 | for any scores where only the metabolic one exceeds 0.9 and the weighted sum is below 0.9, the sum variant gives 0.9 and the mean variant stays below it |
| CompositeRisk.CombinedRiskMonotone | src/components/model/predict.py:3403-3415 | raising any of the three scores never lowers the composite, under both variants |
| CompositeRisk.CombinedRiskExamples | src/components/model/predict.py:3403-3415 | (0.4, 0.4, 0.4) gives 0.4; (0.95, 0.1, 0.1) gives 0.9 under both variants |
| PremiumTiers.BandIndex | src/components/model/predict.py:3451-3470 | the first-match lookup picks a band whose bound is at least the percentage, with every earlier bound below it, or the top tier when no bound is large enough |
| PremiumTiers.TableQuote | src/components/model/predict.py:3451-3470 | the quote is the one at the first position whose bound is at least the percentage, every earlier bound being below it, or the top tier when there is no such bound; in particular the first band's quote when the percentage is within the first bound |
| PremiumTiers.BandsPartition | src/components/model/predict.py:3451-3470 | with ascending bounds, every percentage lies in exactly one band, the one the lookup picks |
| PremiumTiers.UpperBoundIsInclusive | src/components/model/predict.py:3451-3470 | with ascending bounds, a percentage equal to a band's upper bound gets that band's tier |
| PremiumTiers.BandIndexMonotone | src/components/model/predict.py:3451-3470 | a larger percentage never picks an earlier band |
| PremiumTiers.TableMinPremiumMonotone | src/components/model/predict.py:3451-3470 | when minimum premiums never fall along a table, the looked-up minimum premium never falls as the percentage rises |
| PremiumTiers.PremiumFourTierIsTableLookup | predict.py:12-21 | the four-tier chain is the first-match lookup of bands 50, 65, 85 with "Critical" on top |
| PremiumTiers.PremiumTenTierIsTableLookup | src/components/model/predict.py:3449-3470 | the ten-tier chain is the first-match lookup of bands 10, 20, ..., 90 with "Extremely Critical" on top |
| PremiumTiers.PremiumFourTier | predict.py:2-21 | every quote has minimum below maximum; the quote is "Critical" exactly when the percentage exceeds 85, and "Low" exactly when it is at most 50 |
| PremiumTiers.PremiumTenTier | src/components/model/predict.py:3433-3470 | every quote has minimum below maximum; the quote is "Extremely Critical" exactly when the percentage exceeds 90, and "Very Low" exactly when it is at most 10 |
| PremiumTiers.TenTierTableWellFormed | src/components/model/predict.py:3451-3470 | the bounds are 10, 20, ..., 90 and ascending, every range has min < max, each tier's minimum is the previous tier's maximum, and minimums never fall |
| PremiumTiers.FourTierTableWellFormed | predict.py:14-21 | the bounds ascend, every range has min < max and minimums never fall, but consecutive ranges leave gaps (490 to 580, and so on) |
| PremiumTiers.PremiumFourTierMonotone | predict.py:14-21 | a higher risk never gives a lower tier or a lower minimum premium |
| PremiumTiers.PremiumTenTierMonotone | src/components/model/predict.py:3449-3470 | a higher risk never gives a lower tier or a lower minimum premium |
| PremiumTiers.PremiumFourTierBands | predict.py:12-21 | at most 50% is ("Low", 320, 490), including exactly 50%; (50, 65] is ("Medium", 580, 900); (65, 85] is ("High", 950, 1500); above 85 is ("Critical", 1600, 2800); 0.42, 0.60 and 0.99 give Low, Medium and Critical |
| PremiumTiers.PremiumTenTierBoundaries | src/components/model/predict.py:3449-3470 | each bound 10%, ..., 90% takes the lower tier, above 90% is ("Extremely Critical", 93000, 103000), and 0.9 is ("Critical", 83000, 93000) |
| Assessment.ResultsPage | predict.py:486-507 | with missing scores read as 0, the composite is the undivided weighted sum unless any score exceeds 0.9, and then the larger of that sum and 0.9; the quote is the four-tier quote of the composite |
| Assessment.DiabetesStepComposite | src/components/model/predict.py:3352-3368 | with a missing cardiac or renal score read as 0.5, the stored composite is the weighted mean with the new metabolic score, unless the cardiac or renal score exceeds 0.9, and then the larger of that mean and 0.9; the metabolic score never triggers the floor |
| Assessment.CombinedResultsPage | src/components/model/predict.py:3391-3419 | the page redirects exactly when a score is missing; otherwise the composite is the weighted mean of the stored scores, or the larger of it and 0.9 when the cardiac or renal score exceeds 0.9, shown with its ten-tier quote |
| Assessment.DiabetesStep | src/components/model/predict.py:3249-3380 | a malformed metabolic field stores nothing (the page only displays 0.5); otherwise the step stores the metabolic prediction for the parsed form, in [0, 1], and the composite computed from it and the stored cardiac and renal scores |
| Assessment.StoredCompositeIsShown | src/components/model/predict.py:3352-3415 | once the cardiac and renal scores are stored, the composite the metabolic step stores is the composite the combined results page shows |
| Assessment.PagesAgreeUnlessMetabolicAloneExtreme | predict.py:493-504 | with all three scores stored, the two pages show the same composite unless the metabolic score alone exceeds 0.9 |
| Assessment.MissingScoreDefaults | predict.py:488-504 | with nothing stored the results page shows 0 ("Low"), while the metabolic step's composite is 0.4 + 0.2 times its own score, for any score; a stored metabolic score alone gives 0.2 times it on the results page when it is at most 0.9, and 0.9 when it lies in (0.9, 1] |
| Assessment.ExtremeCardiacScenario | src/components/model/predict.py:3403-3419 | scores (0.95, 0.1, 0.1) give 0.9 on both pages: "Critical" (1600-2800) and "Critical" (83000-93000) |
| Assessment.ExtremeMetabolicScenario | src/components/model/predict.py:3403-3415 | scores (0, 0, 0.95) give 0.9 on the results page but 0.19 ("Low", 13000-23000) on the combined results page |
| Assessment.BlendedCardiacScoreBreaksCompositeBound | src/components/model/predict.py:3097 | the unclamped 1.35 cardiac score, with the other two at 1, gives a composite of 1.175 |

## Left out

- Loading the cardiac network and its scaler, training the renal random forest from CSV, and every `predict`/`predict_proba` call: the classifier's answer is a parameter (`ModelResult`).
- The cardiac model is loaded once at module level outside any handler, so a failed load stops the program before the guarded reload runs. The model keeps the guarded `heart_model is None` branch as a reachable path (`NoModel`).
- `random.uniform`: jitter is a parameter bounded by a precondition. Its distribution is not modelled.
- Floating point: arithmetic is exact `real`. The claim that the weights sum to exactly 1 holds in reals; IEEE rounding of 0.5 + 0.3 + 0.2 and of `risk_score * 100` near a tier bound is not modelled.
- Non-finite numbers: `float()` also accepts "nan", "inf" and overflowing literals such as "1e400" (`src/components/model/predict.py:2923`, `:3144`, `:3253`), and the cardiac network could return NaN. `FormValue.Number` and `ModelResult.Probability` carry a finite `real`, so these values are not modelled. In the source a NaN fails every comparison: it fails the `> 0.8` correction test and is stored as is, and it falls through the ten-tier chain to "Extremely Critical" (`src/components/model/predict.py:3469-3470`).
- Flask routing, redirects, rendering, cookies and session writes. The pages are modelled only as functions of the stored scores. Writing a score into the session and the "complete the earlier step first" redirects of the renal and metabolic GET handlers are not modelled.
- The metabolic model is never loaded: `diabetes_model` is `None` on both branches of its set-up (`src/components/model/predict.py:101`, `:110`), so in the source the stored metabolic score is always the heuristic. The model keeps the `modelLoaded` path, which yields the placeholder 0.5, as a parameter (`DiabetesPrediction`), as it keeps `NoModel` for the cardiac step.
- The metabolic classifier's feature vector (`src/components/model/predict.py:3302-3307`): its result is never used, because a loaded model yields the constant 0.5. `FeatureVectors.AssembleFeatures` is the same loop.
- HTML and CSS templates, the React front end and the build configuration: presentation only.
- The diabetes form's eight fields that the heuristic does not read are not kept. They matter only in that a malformed one aborts the step, and `DiabetesFromForm` models that.
