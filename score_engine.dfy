/**
 * `predict_risk`: the trained model's probability when a model is loaded
 * and answers, otherwise the heuristic fallback score, then the three
 * classification bands.
 *
 * The loaded model is a parameter: `None` when no model file was found,
 * and a function from the feature vector to the probability of the risky
 * class (`None` when `predict_proba` raises).
 */
module ScoreEngine {
  import opened Base

  const ExpectedFeatures: seq<string> := [
    "length_chars", "num_sentences", "avg_sentence_length", "num_risks",
    "uses_third_party", "mentions_cookies", "mentions_data_sale", "mentions_tracking"
  ]

  datatype Risk = Risk(classification: string, score: real)

  /** `features.get(k, 0)`. */
  function Feature(features: map<string, real>, k: string): real {
    if k in features then features[k] else 0.0
  }

  /** The model's input: the expected features in order, missing ones as 0. */
  function FeatureVector(features: map<string, real>): (v: seq<real>)
    ensures |v| == |ExpectedFeatures|
    ensures forall i :: 0 <= i < |v| ==> v[i] == Feature(features, ExpectedFeatures[i])
  {
    seq(|ExpectedFeatures|, i requires 0 <= i < |ExpectedFeatures| => Feature(features, ExpectedFeatures[i]))
  }

  /** 40 points per risk, 20 more for a text longer than 5000 characters, capped at 100. */
  function FallbackScore(features: map<string, real>): real {
    var raw := Feature(features, "num_risks") * 40.0 + (if Feature(features, "length_chars") > 5000.0 then 20.0 else 0.0);
    if raw < 100.0 then raw else 100.0
  }

  function Classify(score: real): string {
    if score < 33.0 then "Safe" else if score < 66.0 then "Neutral" else "Risky"
  }

  /** `predict_risk`; the final `round(score, 2)` is not modelled. */
  function PredictRisk(features: map<string, real>, model: Option<seq<real> -> Option<real>>): Risk {
    var score :=
      if model.Some? && model.value(FeatureVector(features)).Some? then model.value(FeatureVector(features)).value * 100.0
      else FallbackScore(features);
    Risk(Classify(score), score)
  }

  /** Position of a band from the safest. */
  function Rank(classification: string): nat {
    if classification == "Safe" then 0 else if classification == "Neutral" then 1 else 2
  }

  /** The bands are ordered: a higher score never gets a safer band, and each band is hit by its interval. */
  lemma ClassifySpec(a: real, b: real)
    ensures a <= b ==> Rank(Classify(a)) <= Rank(Classify(b))
    ensures Classify(a) == "Safe" <==> a < 33.0
    ensures Classify(a) == "Neutral" <==> 33.0 <= a < 66.0
    ensures Classify(a) == "Risky" <==> 66.0 <= a
  {
  }

  /**
   * Without a model the fallback decides; with non-negative counts it lies
   * in [0, 100], and it is monotone in the number of risks.
   */
  lemma FallbackSpec(features: map<string, real>)
    ensures PredictRisk(features, None).score == FallbackScore(features)
    ensures Feature(features, "num_risks") >= 0.0 ==> 0.0 <= FallbackScore(features) <= 100.0
    ensures Feature(features, "num_risks") >= 3.0 ==> FallbackScore(features) == 100.0
    ensures Feature(features, "num_risks") >= 2.0 ==> PredictRisk(features, None).classification == "Risky"
    ensures Feature(features, "num_risks") == 0.0 && Feature(features, "length_chars") <= 5000.0 ==>
      PredictRisk(features, None) == Risk("Safe", 0.0)
  {
  }

  /** More risks never lower the fallback score. */
  lemma FallbackMonotone(f: map<string, real>, g: map<string, real>)
    requires Feature(f, "num_risks") <= Feature(g, "num_risks")
    requires Feature(f, "length_chars") <= Feature(g, "length_chars")
    ensures FallbackScore(f) <= FallbackScore(g)
  {
  }
}
