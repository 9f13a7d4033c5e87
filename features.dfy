/** The feature vector handed to the kidney classifier: the submitted values
    of the fields it was trained on, in its own feature order. */
module FeatureVectors {
  import opened Basics

  /** The form fields the route offers to the kidney classifier; each one
      feeds the feature of the same name. */
  const KidneyFormFields: seq<string> := [
    "age", "bp", "al", "su", "bgr", "bu", "sc", "pot", "wc", "htn", "dm", "cad", "pe", "ane"]

  /** `input_data`: an entry for each offered field that is among the
      classifier's features, holding its value, or 0 when absent or malformed. */
  method CollectKidneyInputs(form: Form, kidneyFeatures: seq<string>) returns (inputData: map<string, real>)
    ensures forall f :: f in inputData <==> f in KidneyFormFields && f in kidneyFeatures
    ensures forall f | f in inputData :: inputData[f] == NumberOr(Lookup(form, f), 0.0)
  {
    inputData := map[];
    var i := 0;
    while i < |KidneyFormFields|
      invariant 0 <= i <= |KidneyFormFields|
      invariant forall f :: f in inputData <==> f in KidneyFormFields[..i] && f in kidneyFeatures
      invariant forall f | f in inputData :: inputData[f] == NumberOr(Lookup(form, f), 0.0)
    {
      var name := KidneyFormFields[i];
      if name in kidneyFeatures {
        inputData := inputData[name := NumberOr(Lookup(form, name), 0.0)];
      }
      i := i + 1;
    }
  }

  /** `features`: one value per feature name, in the given order, taken from
      the collected inputs or 0 when the feature was not collected. */
  method AssembleFeatures(featureOrder: seq<string>, inputData: map<string, real>) returns (features: seq<real>)
    ensures |features| == |featureOrder|
    ensures forall i | 0 <= i < |featureOrder| ::
      features[i] == (if featureOrder[i] in inputData then inputData[featureOrder[i]] else 0.0)
  {
    features := [];
    for i := 0 to |featureOrder|
      invariant |features| == i
      invariant forall j | 0 <= j < i ::
        features[j] == (if featureOrder[j] in inputData then inputData[featureOrder[j]] else 0.0)
    {
      var feature := featureOrder[i];
      if feature in inputData {
        features := features + [inputData[feature]];
      } else {
        features := features + [0.0];
      }
    }
  }

  /** The vector the classifier sees: position `i` holds the submitted value of
      feature `i` when the route offers that field, and 0 otherwise. */
  method KidneyFeatureVector(form: Form, kidneyFeatures: seq<string>) returns (features: seq<real>)
    ensures |features| == |kidneyFeatures|
    ensures forall i | 0 <= i < |kidneyFeatures| ::
      features[i] == (if kidneyFeatures[i] in KidneyFormFields then NumberOr(Lookup(form, kidneyFeatures[i]), 0.0) else 0.0)
  {
    var inputData := CollectKidneyInputs(form, kidneyFeatures);
    features := AssembleFeatures(kidneyFeatures, inputData);
  }
}
