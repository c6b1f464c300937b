/**
 * `extract_features`: the eight numeric features of a policy text and its
 * summary that the risk scorer consumes.
 */
module FeatureExtractor {
  import opened Base
  import opened Json
  import ScoreEngine

  datatype Features = Features(
    lengthChars: nat, numSentences: nat, avgSentenceLength: real, numRisks: nat,
    usesThirdParty: nat, mentionsCookies: nat, mentionsDataSale: nat, mentionsTracking: nat)

  function Flag(b: bool): nat {
    if b then 1 else 0
  }

  /** Python `len(v)`: defined on strings, lists and dictionaries only. */
  function PyLen(v: Json): Option<nat> {
    match v
    case JStr(s) => Some(|s|)
    case JArr(xs) => Some(|xs|)
    case JObj(m) => Some(|m.Keys|)
    case _ => None
  }

  /**
   * `extract_features`; `None` when it raises: a summary that is not a
   * dictionary, or a `risks` value without a length.
   */
  function ExtractFeatures(policyText: Option<string>, summary: Json): Option<Features> {
    var txt := if policyText.Some? then policyText.value else "";
    var lower := Lower(txt);
    var dots := CountChar(txt, '.');
    var numSentences := if dots != 0 then dots else 1;
    if !summary.JObj? then None
    else
      var risks := if "risks" in summary.fields then summary.fields["risks"] else JArr([]);
      match PyLen(risks)
      case None => None
      case Some(numRisks) =>
        Some(Features(
          |txt|, numSentences, PyWordCount(txt) as real / numSentences as real, numRisks,
          Flag(Contains(lower, "third party") || Contains(lower, "third-party")),
          Flag(Contains(lower, "cookie")),
          Flag(Contains(lower, "sell") || Contains(lower, "sale of data")),
          Flag(Contains(lower, "track") || Contains(lower, "analytics"))))
  }

  /** The returned dictionary. */
  function AsMap(f: Features): map<string, real> {
    map[
      "length_chars" := f.lengthChars as real,
      "num_sentences" := f.numSentences as real,
      "avg_sentence_length" := f.avgSentenceLength,
      "num_risks" := f.numRisks as real,
      "uses_third_party" := f.usesThirdParty as real,
      "mentions_cookies" := f.mentionsCookies as real,
      "mentions_data_sale" := f.mentionsDataSale as real,
      "mentions_tracking" := f.mentionsTracking as real
    ]
  }

  /**
   * The features of a text: its length (an absent text counting as empty),
   * the number of full stops or 1 when there is none, the words per
   * sentence, four 0/1 flags each set exactly when the lower-cased text
   * mentions one of its keywords, and the `len` of the summary's `risks`
   * (0 when absent); it raises exactly when `risks` has no `len`.
   */
  lemma ExtractFeaturesSpec(policyText: Option<string>, m: map<string, Json>)
    ensures var txt := if policyText.Some? then policyText.value else "";
      var r := ExtractFeatures(policyText, JObj(m));
      && (("risks" in m ==> m["risks"].JArr? || m["risks"].JStr? || m["risks"].JObj?) <==> r.Some?)
      && (r.Some? ==>
        && r.value.lengthChars == |txt|
        && r.value.numSentences == (if CountChar(txt, '.') == 0 then 1 else CountChar(txt, '.'))
        && r.value.numSentences >= 1
        && (r.value.numSentences == 1 <==> CountChar(txt, '.') <= 1)
        && r.value.avgSentenceLength == PyWordCount(txt) as real / r.value.numSentences as real
        && ("risks" !in m ==> r.value.numRisks == 0)
        && ("risks" in m && m["risks"].JArr? ==> r.value.numRisks == |m["risks"].items|)
        && ("risks" in m && m["risks"].JStr? ==> r.value.numRisks == |m["risks"].str|)
        && ("risks" in m && m["risks"].JObj? ==> r.value.numRisks == |m["risks"].fields.Keys|)
        && r.value.usesThirdParty <= 1 && r.value.mentionsCookies <= 1
        && r.value.mentionsDataSale <= 1 && r.value.mentionsTracking <= 1
        && (r.value.mentionsCookies == 1 <==> Contains(Lower(txt), "cookie"))
        && (r.value.usesThirdParty == 1 <==> Contains(Lower(txt), "third party") || Contains(Lower(txt), "third-party"))
        && (r.value.mentionsDataSale == 1 <==> Contains(Lower(txt), "sell") || Contains(Lower(txt), "sale of data"))
        && (r.value.mentionsTracking == 1 <==> Contains(Lower(txt), "track") || Contains(Lower(txt), "analytics")))
  {
  }

  /** A summary that is not a dictionary makes `summary.get` raise. */
  lemma NonDictSummary(policyText: Option<string>, summary: Json)
    requires !summary.JObj?
    ensures ExtractFeatures(policyText, summary).None?
  {
  }

  /** The dictionary has exactly the eight keys the scorer expects. */
  lemma KeysAreExpected(f: Features)
    ensures AsMap(f).Keys == set k | k in ScoreEngine.ExpectedFeatures
  {
  }

  /** End to end without a trained model: extracted features always score within [0, 100]. */
  lemma ExtractedScoreBounded(policyText: Option<string>, summary: Json)
    requires ExtractFeatures(policyText, summary).Some?
    ensures var s := ScoreEngine.PredictRisk(AsMap(ExtractFeatures(policyText, summary).value), None).score;
      0.0 <= s <= 100.0
  {
    ScoreEngine.FallbackSpec(AsMap(ExtractFeatures(policyText, summary).value));
  }
}
