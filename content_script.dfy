/**
 * The browser extension's content script (extension/content.js): it picks
 * the page's privacy-policy link, asks the backend for a scan of it, then
 * detects third-party trackers among the page's `script[src]`,
 * `iframe[src]` and `img[src]` elements, and merges the trackers it found
 * after those the backend reported.
 *
 * The `URL` constructor is the page's `parse` function: `Some(hostname)`
 * when it parses, `None` when it throws. The DOM is given as the three
 * lists of `src` values in document order; the backend's reply is given as
 * `Some(summary)` or `None` when the request failed or was not ok.
 */
module ContentScript {
  import opened Base
  import Dedup

  // ------------------------------------------------------------------
  // Data

  datatype Tag = Script | Iframe | Img

  /** A tracker the content script detected (`{ name, category, blocked, source, domain }`). */
  datatype TrackerRecord = TrackerRecord(name: string, category: string, blocked: bool, source: Tag, domain: string)

  /** A tracker item the backend reported; only `name` is always present. */
  datatype BackendTracker = BackendTracker(name: string, domain: Option<string>, category: Option<string>, blocked: Option<bool>)

  /** An entry of the merged `summary.trackers` list. */
  datatype Entry = FromBackend(item: BackendTracker) | Detected(rec: TrackerRecord)

  /** The backend's scan summary as the content script reads it; `trackers` may be missing. */
  datatype BackendSummary = BackendSummary(
    url: string, summary: string, classification: string, score: real,
    trackers: Option<seq<BackendTracker>>, cookies: seq<string>)

  /** What is written to storage under `last_privacypulse_summary`. */
  datatype Stored =
    | Saved(url: string, summary: string, classification: string, score: real,
            trackers: seq<Entry>, cookies: seq<string>)
    | Failed(error: string)   // `{ error, trackers: [], cookies: [] }`

  /** The page the script runs in: `location.hostname` and the `URL` constructor's hostname. */
  datatype Page = Page(hostname: string, parse: string -> Option<string>)

  datatype Anchor = Anchor(text: string, href: string)

  const GrokFallback: string := "https://x.ai/legal"
  const FlipkartPolicy: string := "https://www.flipkart.com/pages/privacypolicy"
  const NoLinkMessage: string := "No privacy policy link found"
  const AnalyticsKeywords: seq<string> := ["google", "facebook", "doubleclick", "ads", "pixel"]

  // ------------------------------------------------------------------
  // Privacy-policy link

  predicate MentionsPolicy(a: Anchor) {
    var t := Lower(a.text);
    Contains(t, "privacy") || Contains(t, "legal") || Contains(t, "policy")
  }

  /** `anchors.find(...)`: the first anchor whose lower-cased text mentions privacy, legal or policy. */
  function FindPolicyAnchor(anchors: seq<Anchor>): (r: Option<nat>)
    ensures r.Some? ==> r.value < |anchors| && MentionsPolicy(anchors[r.value])
    ensures r.Some? ==> forall j :: 0 <= j < r.value ==> !MentionsPolicy(anchors[j])
    ensures r.None? ==> forall j :: 0 <= j < |anchors| ==> !MentionsPolicy(anchors[j])
  {
    if |anchors| == 0 then None
    else if MentionsPolicy(anchors[0]) then Some(0)
    else match FindPolicyAnchor(anchors[1..])
      case None => None
      case Some(k) => Some(k + 1)
  }

  /** The policy URL after the two hard-coded overrides; `None` when it is missing or empty. */
  function PolicyUrl(anchors: seq<Anchor>): Option<string> {
    match FindPolicyAnchor(anchors)
    case None => None
    case Some(i) =>
      var u0 := anchors[i].href;
      var u1 := if u0 != "" && Contains(u0, "grok.com/c/") then GrokFallback else u0;
      var u2 := if u1 != "" && Contains(u1, "flipkart.com") then FlipkartPolicy else u1;
      if u2 == "" then None else Some(u2)
  }

  /**
   * The link is the first matching anchor's href; a grok.com session URL
   * becomes the x.ai legal page, any other flipkart.com URL the fixed
   * Flipkart policy page; no matching anchor or an empty href gives none.
   */
  lemma PolicyUrlChoice(anchors: seq<Anchor>)
    ensures FindPolicyAnchor(anchors).None? ==> PolicyUrl(anchors).None?
    ensures FindPolicyAnchor(anchors).Some? ==>
      var h := anchors[FindPolicyAnchor(anchors).value].href;
      && (h == "" ==> PolicyUrl(anchors).None?)
      && (Contains(h, "grok.com/c/") ==> PolicyUrl(anchors) == Some(GrokFallback))
      && (!Contains(h, "grok.com/c/") && Contains(h, "flipkart.com") ==> PolicyUrl(anchors) == Some(FlipkartPolicy))
      && (h != "" && !Contains(h, "grok.com/c/") && !Contains(h, "flipkart.com") ==> PolicyUrl(anchors) == Some(h))
  {
    if FindPolicyAnchor(anchors).Some? {
      var h := anchors[FindPolicyAnchor(anchors).value].href;
      if h == "" { EmptyContainsOnlyEmpty("grok.com/c/"); EmptyContainsOnlyEmpty("flipkart.com"); }
      if Contains(h, "grok.com/c/") { GrokFallbackIsNotFlipkart(); }
    }
  }

  lemma GrokFallbackIsNotFlipkart()
    ensures !Contains(GrokFallback, "flipkart.com")
  {
    assert forall k :: 0 <= k < |GrokFallback| ==> GrokFallback[k] != 'f';
    forall i | 0 <= i && i + 12 <= |GrokFallback| ensures !OccursAt(GrokFallback, "flipkart.com", i) {
      assert GrokFallback[i..i + 12][0] != 'f';
    }
  }

  // ------------------------------------------------------------------
  // Backend reply

  /** A failed or non-ok backend call is replaced by the fixed "Backend scan failed" summary. */
  function BackendOrFallback(reply: Option<BackendSummary>, policyUrl: string): (s: BackendSummary)
    ensures reply.Some? ==> s == reply.value
    ensures reply.None? ==> (s.summary == "Backend scan failed" && s.score == 0.0
      && s.classification == "Unknown" && s.trackers == Some([]) && s.cookies == [] && s.url == policyUrl)
  {
    match reply
    case Some(r) => r
    case None => BackendSummary(policyUrl, "Backend scan failed", "Unknown", 0.0, Some([]), [])
  }

  // ------------------------------------------------------------------
  // Domain and name of one resource

  /** `getDomain`: the lower-cased hostname, or the third `/`-segment when parsing throws; never the page's own. */
  function GetDomain(pg: Page, url: string): Option<string> {
    var host :=
      match pg.parse(url)
      case Some(h) => Lower(h)
      case None =>
        var parts := Split(url, "/");
        if |parts| > 2 then Lower(parts[2]) else "";
    if host == "" || host == Lower(pg.hostname) then None else Some(host)
  }

  lemma GetDomainSpec(pg: Page, url: string)
    ensures GetDomain(pg, url).Some? ==>
      var d := GetDomain(pg, url).value;
      d != "" && d != Lower(pg.hostname) && Lower(d) == d
  {
    if GetDomain(pg, url).Some? {
      var d := GetDomain(pg, url).value;
      match pg.parse(url)
      case Some(h) => LowerIdempotent(h);
      case None => LowerIdempotent(Split(url, "/")[2]);
    }
  }

  /** The first `.`-label after removing the first "www." (`replace("www.", "").split(".")[0]`). */
  function HostLabel(host: string): string {
    Split(ReplaceFirst(host, "www.", ""), ".")[0]
  }

  /** `getTrackerName`; `None` is its `null` (the page's own label). */
  function GetTrackerName(pg: Page, url: string, domain: string): Option<string> {
    match pg.parse(url)
    case Some(h) =>
      var base := HostLabel(Lower(h));
      if base == HostLabel(Lower(pg.hostname)) then None
      else if base == "" then Some("unknown")
      else Some(base)
    case None =>
      var lastPart := Split(Last(Split(url, "/")), "?")[0];
      if lastPart != "" && !Contains(lastPart, domain) then Some(lastPart)
      else
        var first := Split(domain, ".")[0];
        Some(if first == "" then "unknown" else first)
  }

  /**
   * The name is never empty. When the URL parses, it is null exactly when
   * the host's first label equals the page's label, and otherwise that label
   * ("unknown" if empty), which holds no ".". When it does not parse, it is
   * the last path segment before "?" if that is non-empty and does not
   * contain the domain, else the domain's first label ("unknown" if empty),
   * which holds no ".".
   */
  lemma GetTrackerNameSpec(pg: Page, url: string, domain: string)
    ensures GetTrackerName(pg, url, domain).Some? ==> GetTrackerName(pg, url, domain).value != ""
    ensures pg.parse(url).Some? ==>
      var base := HostLabel(Lower(pg.parse(url).value));
      && (GetTrackerName(pg, url, domain).None? <==> base == HostLabel(Lower(pg.hostname)))
      && (base != HostLabel(Lower(pg.hostname)) ==>
            GetTrackerName(pg, url, domain) == Some(if base == "" then "unknown" else base))
      && !Contains(base, ".")
    ensures pg.parse(url).None? ==>
      var lastPart := Split(Last(Split(url, "/")), "?")[0];
      var first := Split(domain, ".")[0];
      && (lastPart != "" && !Contains(lastPart, domain) ==> GetTrackerName(pg, url, domain) == Some(lastPart))
      && (!(lastPart != "" && !Contains(lastPart, domain)) ==>
            GetTrackerName(pg, url, domain) == Some(if first == "" then "unknown" else first))
      && !Contains(first, ".")
  {
    match pg.parse(url)
    case Some(h) => SplitHead(ReplaceFirst(Lower(h), "www.", ""), ".");
    case None => SplitHead(domain, ".");
  }

  // ------------------------------------------------------------------
  // Classification

  /** "Analytics" iff the lower-cased domain contains one of the five keywords. */
  function Category(domain: string): (c: string)
    ensures c == "Analytics" <==> exists k :: k in AnalyticsKeywords && Contains(Lower(domain), k)
    ensures c != "Analytics" ==> c == "Unknown"
  {
    if exists k :: k in AnalyticsKeywords && Contains(Lower(domain), k) then "Analytics" else "Unknown"
  }

  // ------------------------------------------------------------------
  // Detection pass

  datatype Element = Element(src: string, tag: Tag)

  /** The dedup key `${name}:${domain}`. */
  function Key(r: TrackerRecord): string {
    r.name + ":" + r.domain
  }

  /** What `processElement` would record for one element before the seen-key check; `None` when it returns early. */
  function Candidate(pg: Page, e: Element): Option<TrackerRecord> {
    if e.src == "" || Contains(e.src, Lower(pg.hostname)) then None
    else match GetDomain(pg, e.src)
      case None => None
      case Some(domain) =>
        match GetTrackerName(pg, e.src, domain)
        case None => None
        case Some(name) => Some(TrackerRecord(name, Category(domain), false, e.tag, domain))
  }

  /** The candidates of a list of elements, in order. */
  function Candidates(pg: Page, es: seq<Element>): seq<TrackerRecord> {
    if |es| == 0 then []
    else
      Candidates(pg, es[..|es| - 1])
      + match Candidate(pg, es[|es| - 1]) { case None => [] case Some(r) => [r] }
  }

  function Tagged(srcs: seq<string>, tag: Tag): (es: seq<Element>)
    ensures |es| == |srcs| && forall i :: 0 <= i < |srcs| ==> es[i] == Element(srcs[i], tag)
  {
    seq(|srcs|, i requires 0 <= i < |srcs| => Element(srcs[i], tag))
  }

  /** The three `forEach` loops visit scripts, then iframes, then images. */
  function Elements(scripts: seq<string>, iframes: seq<string>, images: seq<string>): seq<Element> {
    Tagged(scripts, Script) + Tagged(iframes, Iframe) + Tagged(images, Img)
  }

  /** The tracker list the detection pass produces. */
  function DetectedTrackers(pg: Page, scripts: seq<string>, iframes: seq<string>, images: seq<string>): seq<TrackerRecord> {
    Dedup.Dedup(Candidates(pg, Elements(scripts, iframes, images)), Key)
  }

  /**
   * The closure state of the detection pass: `trackerList` and the
   * `seenTrackers` set that `processElement` updates.
   */
  class TrackerScan {
    const page: Page
    var trackerList: seq<TrackerRecord>
    var seenTrackers: set<string>

    ghost predicate Valid()
      reads this
    {
      seenTrackers == Dedup.KeySet(trackerList, Key)
    }

    constructor (pg: Page)
      ensures Valid() && page == pg && trackerList == [] && seenTrackers == {}
    {
      page := pg;
      trackerList := [];
      seenTrackers := {};
    }

    /** `processElement(el, tag)`: append the element's record unless it is skipped or its key was seen. */
    method ProcessElement(e: Element)
      requires Valid()
      modifies this
      ensures Valid()
      ensures trackerList == Record(old(trackerList), Candidate(page, e))
    {
      if e.src == "" || Contains(e.src, Lower(page.hostname)) {
        return;
      }
      var domain := GetDomain(page, e.src);
      if domain.None? {
        return;
      }
      var name := GetTrackerName(page, e.src, domain.value);
      if name.None? {
        return;
      }
      var key := name.value + ":" + domain.value;
      if key in seenTrackers {
        return;
      }
      seenTrackers := seenTrackers + {key};
      var rec := TrackerRecord(name.value, Category(domain.value), false, e.tag, domain.value);
      Dedup.KeySetSnoc(trackerList, rec, Key);
      trackerList := trackerList + [rec];
    }
  }

  /** The list after offering one candidate: appended unless absent or its key is already listed. */
  function Record(before: seq<TrackerRecord>, c: Option<TrackerRecord>): seq<TrackerRecord> {
    match c
    case None => before
    case Some(r) => if Key(r) in Dedup.KeySet(before, Key) then before else before + [r]
  }

  /** One step of the pass agrees with the specification of the pass on a list one element longer. */
  lemma DedupStep(pg: Page, es: seq<Element>, e: Element, before: seq<TrackerRecord>, after: seq<TrackerRecord>)
    requires before == Dedup.Dedup(Candidates(pg, es), Key)
    requires after == Record(before, Candidate(pg, e))
    ensures after == Dedup.Dedup(Candidates(pg, es + [e]), Key)
  {
    assert (es + [e])[..|es|] == es;
    var c := Candidates(pg, es + [e]);
    if Candidate(pg, e).Some? {
      assert c == Candidates(pg, es) + [Candidate(pg, e).value];
      assert c[..|c| - 1] == Candidates(pg, es);
    } else {
      assert c == Candidates(pg, es);
    }
  }

  /** One `forEach(el => processElement(el, tag))` loop over a list of elements. */
  method ProcessAll(scan: TrackerScan, els: seq<Element>, ghost done: seq<Element>)
    requires scan.Valid() && scan.trackerList == Dedup.Dedup(Candidates(scan.page, done), Key)
    modifies scan
    ensures scan.Valid()
    ensures scan.trackerList == Dedup.Dedup(Candidates(scan.page, done + els), Key)
  {
    var i := 0;
    ghost var seen := done;
    assert done + els[..0] == done;
    while i < |els|
      invariant 0 <= i <= |els| && seen == done + els[..i]
      invariant scan.Valid()
      invariant scan.trackerList == Dedup.Dedup(Candidates(scan.page, seen), Key)
    {
      ghost var before := scan.trackerList;
      scan.ProcessElement(els[i]);
      DedupStep(scan.page, seen, els[i], before, scan.trackerList);
      SnocSlice(done, els, i);
      seen := seen + [els[i]];
      i := i + 1;
    }
    assert els[..i] == els;
  }

  /** Runs the scripts, iframes and images loops over a fresh pass state. */
  method DetectTrackers(pg: Page, scripts: seq<string>, iframes: seq<string>, images: seq<string>)
    returns (trackerList: seq<TrackerRecord>)
    ensures trackerList == DetectedTrackers(pg, scripts, iframes, images)
  {
    var scan := new TrackerScan(pg);
    var s, f, m := Tagged(scripts, Script), Tagged(iframes, Iframe), Tagged(images, Img);
    assert [] + s == s;
    ProcessAll(scan, s, []);
    ProcessAll(scan, f, s);
    ProcessAll(scan, m, s + f);
    trackerList := scan.trackerList;
  }

  /**
   * Within one pass, `name:domain` keys are unique; every record comes from
   * the first element (scripts, then iframes, then images) that yields its
   * key, and every key some element yields is recorded.
   */
  lemma DetectedTrackersSpec(pg: Page, scripts: seq<string>, iframes: seq<string>, images: seq<string>)
    ensures var d := DetectedTrackers(pg, scripts, iframes, images);
      var c := Candidates(pg, Elements(scripts, iframes, images));
      && Dedup.UniqueKeys(d, Key)
      && Dedup.KeySet(d, Key) == Dedup.KeySet(c, Key)
      && d == Dedup.KeepFirsts(c, Key)
  {
    var c := Candidates(pg, Elements(scripts, iframes, images));
    Dedup.DedupUnique(c, Key);
    Dedup.DedupKeySet(c, Key);
    Dedup.DedupIsKeepFirsts(c, Key);
  }

  /** Every candidate record comes from an element that passed every check, with its loop's tag and `blocked = false`. */
  lemma {:induction false} CandidatesFromElements(pg: Page, es: seq<Element>)
    ensures forall r :: r in Candidates(pg, es) ==>
      exists i :: 0 <= i < |es| && Candidate(pg, es[i]) == Some(r)
  {
    if |es| > 0 {
      var p := es[..|es| - 1];
      CandidatesFromElements(pg, p);
      forall r | r in Candidates(pg, es) ensures exists i :: 0 <= i < |es| && Candidate(pg, es[i]) == Some(r) {
        if r in Candidates(pg, p) {
          var i :| 0 <= i < |p| && Candidate(pg, p[i]) == Some(r);
          assert es[i] == p[i];
        } else {
          assert Candidate(pg, es[|es| - 1]) == Some(r);
        }
      }
    }
  }

  /**
   * An element yields no record when its src is empty or contains the
   * lower-cased page hostname, or its domain is the page's own; a record
   * it yields has blocked = false, the element's tag, and the category of
   * its domain.
   */
  lemma CandidateSpec(pg: Page, e: Element)
    ensures e.src == "" || Contains(e.src, Lower(pg.hostname)) ==> Candidate(pg, e).None?
    ensures GetDomain(pg, e.src).None? ==> Candidate(pg, e).None?
    ensures Candidate(pg, e).Some? ==>
      var r := Candidate(pg, e).value;
      && !r.blocked && r.source == e.tag && r.category == Category(r.domain)
      && Some(r.domain) == GetDomain(pg, e.src) && r.domain != Lower(pg.hostname)
      && Some(r.name) == GetTrackerName(pg, e.src, r.domain)
  {
    GetDomainSpec(pg, e.src);
  }

  // ------------------------------------------------------------------
  // Merge with the backend's trackers

  /** A backend item's key: `${name.lower}:${domain || name.lower}`. */
  function BackendKey(t: BackendTracker): string {
    Lower(t.name) + ":" + (if t.domain.Some? && t.domain.value != "" then t.domain.value else Lower(t.name))
  }

  function LocalKey(r: TrackerRecord): string {
    Lower(r.name) + ":" + Lower(r.domain)
  }

  function BackendKeys(backend: seq<BackendTracker>): (ks: seq<string>)
    ensures |ks| == |backend| && forall i :: 0 <= i < |backend| ==> ks[i] == BackendKey(backend[i])
  {
    seq(|backend|, i requires 0 <= i < |backend| => BackendKey(backend[i]))
  }

  /** `trackerList.filter(t => !existingTrackers.includes(...))`. */
  function NewLocal(keys: seq<string>, local: seq<TrackerRecord>): (u: seq<TrackerRecord>)
    ensures |u| <= |local|
    ensures forall r :: r in u <==> r in local && LocalKey(r) !in keys
  {
    if |local| == 0 then []
    else (if LocalKey(local[0]) in keys then [] else [local[0]]) + NewLocal(keys, local[1..])
  }

  function WrapBackend(backend: seq<BackendTracker>): (es: seq<Entry>)
    ensures |es| == |backend| && forall i :: 0 <= i < |backend| ==> es[i] == FromBackend(backend[i])
  {
    seq(|backend|, i requires 0 <= i < |backend| => FromBackend(backend[i]))
  }

  function WrapLocal(local: seq<TrackerRecord>): (es: seq<Entry>)
    ensures |es| == |local| && forall i :: 0 <= i < |local| ==> es[i] == Detected(local[i])
  {
    seq(|local|, i requires 0 <= i < |local| => Detected(local[i]))
  }

  /** `summary.trackers = [...(summary.trackers || []), ...uniqueTrackers]`. */
  function MergeTrackers(backend: Option<seq<BackendTracker>>, local: seq<TrackerRecord>): seq<Entry> {
    var b := if backend.Some? then backend.value else [];
    WrapBackend(b) + WrapLocal(NewLocal(BackendKeys(b), local))
  }

  /**
   * The merged list starts with the backend trackers unchanged and in order,
   * followed by exactly those detected records whose lower-cased key is not
   * a backend key.
   */
  lemma MergeTrackersSpec(backend: seq<BackendTracker>, local: seq<TrackerRecord>)
    ensures var m := MergeTrackers(Some(backend), local);
      && |backend| <= |m| <= |backend| + |local|
      && (forall i :: 0 <= i < |backend| ==> m[i] == FromBackend(backend[i]))
      && (forall i :: |backend| <= i < |m| ==> m[i].Detected? && m[i].rec in local && LocalKey(m[i].rec) !in BackendKeys(backend))
      && (forall r :: r in local && LocalKey(r) !in BackendKeys(backend) ==> Detected(r) in m)
      && m[|backend|..] == WrapLocal(NewLocal(BackendKeys(backend), local))
  {
    var keys := BackendKeys(backend);
    var u := NewLocal(keys, local);
    var wb, wl := WrapBackend(backend), WrapLocal(u);
    var m := MergeTrackers(Some(backend), local);
    assert m == wb + wl;
    forall i | |backend| <= i < |m|
      ensures m[i].Detected? && m[i].rec in local && LocalKey(m[i].rec) !in keys
    {
      assert m[i] == wl[i - |backend|];
      assert u[i - |backend|] in u;
    }
    forall r | r in local && LocalKey(r) !in keys ensures Detected(r) in m {
      assert r in u;
      var j :| 0 <= j < |u| && u[j] == r;
      assert m[|backend| + j] == wl[j];
    }
    assert m[|backend|..] == wl;
  }

  /**
   * The filter keeps the detected records in their order: filtering a
   * concatenation concatenates the filtered parts.
   */
  lemma {:induction false} NewLocalAppend(keys: seq<string>, a: seq<TrackerRecord>, b: seq<TrackerRecord>)
    ensures NewLocal(keys, a + b) == NewLocal(keys, a) + NewLocal(keys, b)
  {
    if |a| > 0 {
      assert (a + b)[0] == a[0];
      assert (a + b)[1..] == a[1..] + b;
      NewLocalAppend(keys, a[1..], b);
    } else {
      assert a + b == b;
    }
  }

  /** One detected record is kept exactly when its lower-cased key is not a backend key. */
  lemma NewLocalSingle(keys: seq<string>, r: TrackerRecord)
    ensures NewLocal(keys, [r]) == if LocalKey(r) in keys then [] else [r]
  {
    assert [r][1..] == [];
  }

  // ------------------------------------------------------------------
  // The whole content script

  /**
   * No policy link stores the error object; otherwise the backend's summary
   * (or the fixed fallback) is stored with the detected trackers merged in.
   */
  method RunContentScript(anchors: seq<Anchor>, reply: Option<BackendSummary>, pg: Page,
                          scripts: seq<string>, iframes: seq<string>, images: seq<string>)
    returns (stored: Stored)
    ensures PolicyUrl(anchors).None? ==> stored == Failed(NoLinkMessage)
    ensures PolicyUrl(anchors).Some? ==>
      var s := BackendOrFallback(reply, PolicyUrl(anchors).value);
      stored == Saved(s.url, s.summary, s.classification, s.score,
                      MergeTrackers(s.trackers, DetectedTrackers(pg, scripts, iframes, images)), s.cookies)
  {
    var policyUrl := PolicyUrl(anchors);
    if policyUrl.None? {
      return Failed(NoLinkMessage);
    }
    var summary := BackendOrFallback(reply, policyUrl.value);
    var trackerList := DetectTrackers(pg, scripts, iframes, images);
    var merged := MergeTrackers(summary.trackers, trackerList);
    stored := Saved(summary.url, summary.summary, summary.classification, summary.score, merged, summary.cookies);
  }
}
