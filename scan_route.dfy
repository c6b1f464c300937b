/**
 * The `POST /api/scan/` handler: the result cache keyed by URL, the
 * fallback policy URLs tried in order until one yields text, the pipeline
 * summary → features → risk, the conversion of the web scan's trackers,
 * and the fixed result when anything raises.
 *
 * Everything the handler awaits or imports from elsewhere is a field of
 * `Services`: fetching a policy (`None` when it raises), summarising it
 * (`process_policy`, modelled in AnalyzePolicy), the risk model used by
 * `predict_risk`, the web scan (`analyze_website`, modelled in
 * WebScanner), the country lookup and the database write (`false` when
 * it raises). Feature extraction and risk scoring are the modelled
 * functions themselves.
 */
module ScanRoute {
  import opened Base
  import opened Json
  import FeatureExtractor
  import ScoreEngine

  datatype TrackerInfo = TrackerInfo(name: string, category: Option<string>, blocked: bool)

  datatype ScanResult = ScanResult(
    url: string, summary: string, classification: string, score: real,
    trackers: seq<TrackerInfo>, cookies: seq<string>, rawPolicyText: string,
    features: map<string, real>, geo: Option<Json>)

  datatype Services = Services(
    fetch: string -> Option<string>,
    process: string -> Json,
    model: Option<seq<real> -> Option<real>>,
    analyze: string -> Json,
    country: string -> Json,
    save: ScanResult -> bool)

  /** The result returned when the scan raises; it is not cached. */
  function Failure(url: string): ScanResult {
    ScanResult(url, "Scan failed", "Unknown", 0.0, [], [], "", map[], None)
  }

  // ------------------------------------------------------------------
  // Fallback URLs

  /** The index of the last occurrence of `c`. */
  function LastIndex(s: string, c: char): (r: Option<nat>)
    ensures r.Some? ==> r.value < |s| && s[r.value] == c && forall j :: r.value < j < |s| ==> s[j] != c
    ensures r.None? ==> forall j :: 0 <= j < |s| ==> s[j] != c
  {
    if s == [] then None
    else if s[|s| - 1] == c then Some(|s| - 1)
    else LastIndex(s[..|s| - 1], c)
  }

  /** `url.rsplit('/', 1)[0]` when the URL has a '/', else the URL itself. */
  function FallbackBase(url: string): string {
    match LastIndex(url, '/')
    case Some(k) => url[..k]
    case None => url
  }

  function Fallbacks(url: string): seq<string> {
    var b := FallbackBase(url);
    [b + "/privacy", b + "/legal", b + "/privacy-policy"]
  }

  /**
   * The candidates replace everything after the URL's last '/' (or, with
   * no '/', follow the whole URL) by "/privacy", "/legal" and
   * "/privacy-policy", in that order.
   */
  lemma FallbacksSpec(url: string)
    ensures var b := FallbackBase(url);
      && Fallbacks(url) == [b + "/privacy", b + "/legal", b + "/privacy-policy"]
      && ('/' in url ==> exists rest :: url == b + "/" + rest && '/' !in rest)
      && ('/' !in url ==> b == url)
  {
    var b := FallbackBase(url);
    match LastIndex(url, '/')
    case Some(k) =>
      var rest := url[k + 1..];
      assert url == b + "/" + rest;
      assert forall j :: 0 <= j < |rest| ==> rest[j] == url[k + 1 + j];
    case None =>
  }

  /** The fallback loop from candidate `i`: the first non-empty text and its URL; all empty keeps the URL and an empty text. */
  function FirstHit(fbs: seq<string>, i: nat, fetch: string -> Option<string>, url: string): Option<(string, string)>
    requires i <= |fbs|
    decreases |fbs| - i
  {
    if i == |fbs| then Some(("", url))
    else
      match fetch(fbs[i])
      case None => None
      case Some(t) => if t != "" then Some((t, fbs[i])) else FirstHit(fbs, i + 1, fetch, url)
  }

  predicate Problematic(url: string) {
    Contains(url, "grok.com/c/")
  }

  /** The policy text and the URL it came from; `None` when a fetch raises. */
  function Locate(url: string, fetch: string -> Option<string>): Option<(string, string)> {
    match fetch(url)
    case None => None
    case Some(t) =>
      if t == "" || Problematic(url) then FirstHit(Fallbacks(url), 0, fetch, url) else Some((t, url))
  }

  /**
   * The fallback loop stops at the first candidate that yields text; the
   * candidates before it all yielded the empty text.
   */
  lemma {:induction false} FirstHitSpec(fbs: seq<string>, i: nat, fetch: string -> Option<string>, url: string)
    requires i <= |fbs|
    decreases |fbs| - i
    ensures var r := FirstHit(fbs, i, fetch, url);
      r.Some? ==>
        if r.value.0 == "" then
          r.value.1 == url && forall j :: i <= j < |fbs| ==> fetch(fbs[j]) == Some("")
        else
          exists k :: i <= k < |fbs| && r.value.1 == fbs[k] && fetch(fbs[k]) == Some(r.value.0)
            && forall j :: i <= j < k ==> fetch(fbs[j]) == Some("")
  {
    if i < |fbs| && fetch(fbs[i]) == Some("") {
      FirstHitSpec(fbs, i + 1, fetch, url);
      var r := FirstHit(fbs, i, fetch, url);
      if r.Some? && r.value.0 != "" {
        var k :| i + 1 <= k < |fbs| && r.value.1 == fbs[k] && fetch(fbs[k]) == Some(r.value.0)
            && forall j :: i + 1 <= j < k ==> fetch(fbs[j]) == Some("");
        assert forall j :: i <= j < k ==> fetch(fbs[j]) == Some("");
      }
    } else if i < |fbs| && fetch(fbs[i]).Some? {
      assert FirstHit(fbs, i, fetch, url) == Some((fetch(fbs[i]).value, fbs[i]));
    }
  }

  /** A URL that is fine and yields text is used as it is; the fallbacks are not tried. */
  lemma LocateDirect(url: string, fetch: string -> Option<string>)
    requires !Problematic(url) && fetch(url).Some? && fetch(url).value != ""
    ensures Locate(url, fetch) == Some((fetch(url).value, url))
  {
  }

  /**
   * A problematic URL always goes through the fallbacks: when they all
   * yield nothing, the text fetched from the URL itself is dropped.
   */
  lemma ProblematicDropsText(url: string, fetch: string -> Option<string>)
    requires Problematic(url) && fetch(url).Some?
    requires forall j :: 0 <= j < 3 ==> fetch(Fallbacks(url)[j]) == Some("")
    ensures Locate(url, fetch) == Some(("", url))
  {
    var fbs := Fallbacks(url);
    assert FirstHit(fbs, 3, fetch, url) == Some(("", url));
    assert FirstHit(fbs, 2, fetch, url) == Some(("", url));
    assert FirstHit(fbs, 1, fetch, url) == Some(("", url));
  }

  // ------------------------------------------------------------------
  // Building the result

  /** One element of the web scan's tracker list; `None` when the lookup or the validation raises. */
  function ToTrackerInfo(t: Json): Option<TrackerInfo> {
    if !t.JObj? || "name" !in t.fields || !t.fields["name"].JStr? then None
    else
      var c := if "category" in t.fields then t.fields["category"] else JStr("Analytics");
      var b := if "blocked" in t.fields then t.fields["blocked"] else JBool(false);
      if !(c.JStr? || c.JNull?) || !b.JBool? then None
      else Some(TrackerInfo(t.fields["name"].str, if c.JStr? then Some(c.str) else None, b.b))
  }

  function ToTrackerInfos(ts: seq<Json>): (r: Option<seq<TrackerInfo>>)
    ensures r.Some? ==> |r.value| == |ts| && forall i :: 0 <= i < |ts| ==> ToTrackerInfo(ts[i]) == Some(r.value[i])
    ensures r.None? ==> exists i :: 0 <= i < |ts| && ToTrackerInfo(ts[i]).None?
  {
    if ts == [] then Some([])
    else
      match ToTrackerInfo(ts[0])
      case None => None
      case Some(x) =>
        match ToTrackerInfos(ts[1..])
        case None => None
        case Some(xs) => Some([x] + xs)
  }

  /** What `for t in v` yields when every `t` must be a dictionary: empty containers give nothing, any other value raises. */
  function Iterated(v: Json): Option<seq<Json>> {
    match v
    case JArr(xs) => Some(xs)
    case JStr(s) => if s == "" then Some([]) else None
    case JObj(m) => if m == map[] then Some([]) else None
    case _ => None
  }

  function Strings(v: Json): (r: Option<seq<string>>)
    ensures r.Some? ==> v.JArr? && |r.value| == |v.items| && forall i :: 0 <= i < |v.items| ==> v.items[i] == JStr(r.value[i])
  {
    if v.JArr? && forall i :: 0 <= i < |v.items| ==> v.items[i].JStr? then
      Some(seq(|v.items|, i requires 0 <= i < |v.items| => v.items[i].str))
    else None
  }

  /** The result for policy text `text` found at `url`; `None` when building or saving it raises. */
  function Build(url: string, text: string, svc: Services): Option<ScanResult> {
    var summary := if text != "" then svc.process(text) else JObj(map["summary" := JStr("No policy text found")]);
    var extracted := if text != "" then FeatureExtractor.ExtractFeatures(Some(text), summary) else None;
    if text != "" && extracted.None? then None
    else
      var features := if text != "" then FeatureExtractor.AsMap(extracted.value) else map[];
      var risk := if features != map[] then ScoreEngine.PredictRisk(features, svc.model) else ScoreEngine.Risk("Unknown", 0.0);
      var scanData := svc.analyze(url);
      if !scanData.JObj? || !summary.JObj? then None
      else
        var items := Iterated(if "trackers" in scanData.fields then scanData.fields["trackers"] else JArr([]));
        var cookies := Strings(if "cookies" in scanData.fields then scanData.fields["cookies"] else JArr([]));
        var s := if "summary" in summary.fields then summary.fields["summary"] else JStr("");
        if items.None? || cookies.None? || !s.JStr? then None
        else
          match ToTrackerInfos(items.value)
          case None => None
          case Some(trackers) =>
            var result := ScanResult(url, s.str, risk.classification, risk.score, trackers, cookies.value, text, features, Some(svc.country(url)));
            if svc.save(result) then Some(result) else None
  }

  /** The handler's answer for a URL not in the cache, and the key it is cached under (none after a failure). */
  datatype Outcome = Outcome(result: ScanResult, key: Option<string>)

  function Scan(url: string, svc: Services): Outcome {
    match Locate(url, svc.fetch)
    case None => Outcome(Failure(url), None)
    case Some((text, finalUrl)) =>
      match Build(finalUrl, text, svc)
      case None => Outcome(Failure(finalUrl), None)
      case Some(r) => Outcome(r, Some(finalUrl))
  }

  /**
   * A scan with no policy text anywhere reports "No policy text found",
   * no features and the unknown risk; with text, the features are those
   * extracted from the text and its processed summary, the summary is that
   * summary's `summary` ("" when absent) and the risk is `predict_risk` of
   * the features. A result is
   * cached under the URL it reports, which is the fallback URL when one
   * was used.
   */
  lemma ScanSpec(url: string, svc: Services)
    ensures var o := Scan(url, svc);
      && (o.key.Some? ==> o.key.value == o.result.url)
      && (o.key.None? ==> o.result == Failure(o.result.url))
      && (o.key.Some? && o.result.rawPolicyText == "" ==>
            o.result.summary == "No policy text found" && o.result.features == map[]
            && o.result.classification == "Unknown" && o.result.score == 0.0)
      && (o.key.Some? && o.result.rawPolicyText != "" ==>
            var t := o.result.rawPolicyText;
            var summary := svc.process(t);
            && FeatureExtractor.ExtractFeatures(Some(t), summary).Some?
            && o.result.features == FeatureExtractor.AsMap(FeatureExtractor.ExtractFeatures(Some(t), summary).value)
            && summary.JObj?
            && o.result.summary == (if "summary" in summary.fields then summary.fields["summary"].str else "")
            && ScoreEngine.PredictRisk(o.result.features, svc.model) == ScoreEngine.Risk(o.result.classification, o.result.score))
  {
    var o := Scan(url, svc);
    match Locate(url, svc.fetch)
    case None =>
    case Some((text, finalUrl)) =>
      if o.key.Some? && text != "" {
        var summary := svc.process(text);
        var f := FeatureExtractor.ExtractFeatures(Some(text), summary).value;
        assert "length_chars" in FeatureExtractor.AsMap(f);
        assert o.result.features == FeatureExtractor.AsMap(f);
      }
  }

  /** Trackers keep their names; a missing category becomes "Analytics" and a missing blocked flag false; domains are dropped. */
  lemma TrackerDefaults(name: string, rest: map<string, Json>)
    requires "name" !in rest && "category" !in rest && "blocked" !in rest
    ensures ToTrackerInfo(JObj(rest["name" := JStr(name)])) == Some(TrackerInfo(name, Some("Analytics"), false))
  {
  }

  // ------------------------------------------------------------------
  // The handler with its cache

  class ScanRouter {
    /** `CACHE`: final results by the URL they report. */
    var cache: map<string, ScanResult>

    constructor()
      ensures cache == map[]
    {
      cache := map[];
    }

    /** The loop over the fallback candidates, stopping at the first one that yields text. */
    static method TryFallbacks(url: string, fetch: string -> Option<string>) returns (r: Option<(string, string)>)
      ensures r == FirstHit(Fallbacks(url), 0, fetch, url)
    {
      var fbs := Fallbacks(url);
      var i := 0;
      while i < |fbs|
        invariant 0 <= i <= |fbs|
        invariant FirstHit(fbs, 0, fetch, url) == FirstHit(fbs, i, fetch, url)
      {
        var policyText := fetch(fbs[i]);
        if policyText.None? {
          return None;
        }
        if policyText.value != "" {
          return Some((policyText.value, fbs[i]));
        }
        i := i + 1;
      }
      return Some(("", url));
    }

    /** `scan_url`: a cached URL is answered from the cache; otherwise the scan runs and a success is stored. */
    method ScanUrl(url: string, svc: Services) returns (r: ScanResult)
      modifies this
      ensures url in old(cache) ==> r == old(cache)[url] && cache == old(cache)
      ensures url !in old(cache) ==> r == Scan(url, svc).result
      ensures url !in old(cache) && Scan(url, svc).key.Some? ==> cache == old(cache)[Scan(url, svc).key.value := r]
      ensures url !in old(cache) && Scan(url, svc).key.None? ==> cache == old(cache)
    {
      if url in cache {
        return cache[url];
      }
      var first := svc.fetch(url);
      if first.None? {
        return Failure(url);
      }
      var located := Some((first.value, url));
      if first.value == "" || Problematic(url) {
        located := TryFallbacks(url, svc.fetch);
        if located.None? {
          return Failure(url);
        }
      }
      var policyText, finalUrl := located.value.0, located.value.1;
      var built := Build(finalUrl, policyText, svc);
      if built.None? {
        return Failure(finalUrl);
      }
      r := built.value;
      cache := cache[finalUrl := r];
    }
  }
}
