/**
 * `process_policy`: the guard against empty text, the validation of the
 * summariser's response and its normalisation to exactly five bullets.
 *
 * The response of `ai_summarize` is a parameter (its own model is in
 * module AiService), as is `json.loads` for a response that arrives as a
 * string. `errorMessage` stands for `str(e)` of whatever exception the
 * validation raises.
 */
module AnalyzePolicy {
  import opened Base
  import opened Json

  const BulletCount: nat := 5
  const MissingBullet: string := "Missing bullet"

  /** The dictionary shape every result has. */
  function Dict(summary: Json, bullets: Json, tone: Json, risks: Json): Json {
    JObj(map["summary" := summary, "bullets" := bullets, "tone" := tone, "risks" := risks])
  }

  function Failed(summary: string): Json {
    Dict(JStr(summary), JArr([]), JStr("neutral"), JArr([]))
  }

  const NoText: Json := Failed("No policy text found")
  const Incomplete: Json := Failed("Error: Incomplete AI response")

  function ErrorResult(errorMessage: string): Json {
    Failed("Error processing policy: " + errorMessage)
  }

  /**
   * Python's `key in v` for the decoded response: a dictionary tests its
   * keys, a list its items, a string its substrings; on any other value
   * `in` raises (`None`).
   */
  function HasKey(v: Json, k: string): Option<bool> {
    match v
    case JObj(m) => Some(k in m)
    case JArr(xs) => Some(JStr(k) in xs)
    case JStr(s) => Some(Contains(s, k))
    case _ => None
  }

  /** `all(key in response for key in required_keys)`; `None` when the first test raises. */
  function HasAllKeys(v: Json): Option<bool> {
    if !(v.JObj? || v.JArr? || v.JStr?) then None
    else Some(HasKey(v, "summary") == Some(true) && HasKey(v, "bullets") == Some(true)
              && HasKey(v, "tone") == Some(true) && HasKey(v, "risks") == Some(true))
  }

  /** `["Missing bullet"] * (5 - n)`: Python repeats a list a negative number of times as `[]`. */
  function Padding(n: nat): (r: seq<Json>)
    ensures |r| == if n < BulletCount then BulletCount - n else 0
    ensures forall i :: 0 <= i < |r| ==> r[i] == JStr(MissingBullet)
    decreases BulletCount - n
  {
    if n >= BulletCount then [] else [JStr(MissingBullet)] + Padding(n + 1)
  }

  /** `bullets[:5] + padding`. */
  function FiveBullets(items: seq<Json>): seq<Json> {
    items[..Min(|items|, BulletCount)] + Padding(|items|)
  }

  /**
   * The logging at the end reads `len(summary)` and `summary[:100]`:
   * among JSON values only strings and lists allow both.
   */
  predicate Loggable(v: Json) {
    v.JStr? || v.JArr?
  }

  /** The validation applied to the (decoded) response. */
  function Validate(v: Json, errorMessage: string): Json {
    match HasAllKeys(v)
    case None => ErrorResult(errorMessage)
    case Some(false) => Incomplete
    case Some(true) =>
      if !v.JObj? then ErrorResult(errorMessage)   // `response["bullets"]` on a list or string
      else
        var f := v.fields;
        var b := f["bullets"];
        if !b.JArr? then ErrorResult(errorMessage)   // slicing and concatenating a non-list raises
        else if |b.items| != BulletCount then Dict(f["summary"], JArr(FiveBullets(b.items)), f["tone"], f["risks"])
        else if Loggable(f["summary"]) then v
        else ErrorResult(errorMessage)
  }

  /** `process_policy`. */
  function ProcessPolicy(policyText: string, response: Json, loads: string -> Option<Json>, errorMessage: string): Json {
    if policyText == "" then NoText
    else
      match response
      case JStr(s) =>
        (match loads(s)
         case None => ErrorResult(errorMessage)
         case Some(v) => Validate(v, errorMessage))
      case JObj(_) => Validate(response, errorMessage)
      case _ => ErrorResult(errorMessage)
  }

  /** The five normalised bullets: the first five originals in order, then padding. */
  lemma FiveBulletsSpec(items: seq<Json>)
    ensures |FiveBullets(items)| == BulletCount
    ensures forall i :: 0 <= i < Min(|items|, BulletCount) ==> FiveBullets(items)[i] == items[i]
    ensures forall i :: |items| <= i < BulletCount ==> FiveBullets(items)[i] == JStr(MissingBullet)
    ensures |items| == BulletCount ==> FiveBullets(items) == items
  {
  }

  /**
   * A dictionary response: missing keys give the fixed "incomplete" result;
   * a list of bullets of the wrong length is normalised to five, keeping
   * summary, tone and risks; five bullets leave the response unchanged
   * when its summary is a string or a list, and give the error result
   * otherwise (the logging of `len(summary)` raises); any other bullets
   * value is an error.
   */
  lemma ProcessPolicySpec(policyText: string, m: map<string, Json>, loads: string -> Option<Json>, errorMessage: string)
    requires policyText != ""
    ensures var r := ProcessPolicy(policyText, JObj(m), loads, errorMessage);
      && (!("summary" in m && "bullets" in m && "tone" in m && "risks" in m) ==> r == Incomplete)
      && ("summary" in m && "bullets" in m && "tone" in m && "risks" in m ==>
            && (!m["bullets"].JArr? ==> r == ErrorResult(errorMessage))
            && (m["bullets"].JArr? && |m["bullets"].items| != BulletCount ==>
                  r == Dict(m["summary"], JArr(FiveBullets(m["bullets"].items)), m["tone"], m["risks"])
                  && |FiveBullets(m["bullets"].items)| == BulletCount)
            && (m["bullets"].JArr? && |m["bullets"].items| == BulletCount && Loggable(m["summary"]) ==> r == JObj(m))
            && (m["bullets"].JArr? && |m["bullets"].items| == BulletCount && !Loggable(m["summary"]) ==> r == ErrorResult(errorMessage)))
  {
    if "summary" in m && "bullets" in m && "tone" in m && "risks" in m && m["bullets"].JArr? {
      FiveBulletsSpec(m["bullets"].items);
    }
  }

  /** Empty text returns the fixed result, whatever the summariser would say. */
  lemma NoTextSpec(response: Json, loads: string -> Option<Json>, errorMessage: string)
    ensures ProcessPolicy("", response, loads, errorMessage) == NoText
  {
  }

  /** A string response is decoded first; one that does not decode is an error. */
  lemma StringResponse(policyText: string, s: string, loads: string -> Option<Json>, errorMessage: string)
    requires policyText != ""
    ensures loads(s).None? ==> ProcessPolicy(policyText, JStr(s), loads, errorMessage) == ErrorResult(errorMessage)
    ensures loads(s).Some? ==> ProcessPolicy(policyText, JStr(s), loads, errorMessage) == Validate(loads(s).value, errorMessage)
  {
  }

  /** A response that is neither a string nor a dictionary raises, which gives the error result. */
  lemma OtherResponse(policyText: string, response: Json, loads: string -> Option<Json>, errorMessage: string)
    requires policyText != ""
    ensures !response.JStr? && !response.JObj? ==> ProcessPolicy(policyText, response, loads, errorMessage) == ErrorResult(errorMessage)
    ensures response.JObj? ==> ProcessPolicy(policyText, response, loads, errorMessage) == Validate(response, errorMessage)
  {
  }

  /** Every result has the four keys, and its bullets are a list of exactly five unless the result is an error or the response came back unchanged. */
  lemma ResultShape(policyText: string, response: Json, loads: string -> Option<Json>, errorMessage: string)
    ensures var r := ProcessPolicy(policyText, response, loads, errorMessage);
      r.JObj? && "summary" in r.fields && "bullets" in r.fields && "tone" in r.fields && "risks" in r.fields
      && r.fields["bullets"].JArr?
      && (r.fields["bullets"].items == [] || |r.fields["bullets"].items| == BulletCount)
  {
    var r := ProcessPolicy(policyText, response, loads, errorMessage);
    var v := if response.JStr? && loads(response.str).Some? then loads(response.str).value else response;
    if policyText != "" && v.JObj? && HasAllKeys(v) == Some(true) && v.fields["bullets"].JArr? {
      FiveBulletsSpec(v.fields["bullets"].items);
    }
  }
}
