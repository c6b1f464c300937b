/**
 * The backend's website scanner: URL scheme normalisation, up to three
 * headless-browser attempts that classify and deduplicate the page's
 * resources in-page, then a fallback that fetches the page and walks its
 * `script` and `iframe` sources with a set of seen keys, and the error
 * result when both fail.
 *
 * Browser and HTTP I/O are inputs: each browser attempt is an oracle
 * `attempt(n)` (`None` when it throws), the fetched page is a
 * `RequestsReply`.
 */
module WebScanner {
  import opened Base
  import Dedup
  import ContentScript

  /** A tracker as the scanner reports it. */
  datatype Tracker = Tracker(name: string, category: string, blocked: bool, domain: string)

  const SecurityHeaderNames: seq<string> := ["Content-Security-Policy", "Strict-Transport-Security", "X-Frame-Options"]
  const Attempts: nat := 3

  // ------------------------------------------------------------------
  // URL normalisation

  predicate HasScheme(url: string) {
    StartsWith(url, "http://") || StartsWith(url, "https://")
  }

  /** A URL without an http(s) scheme gets "https://" prepended. */
  function NormalizeUrl(url: string): (r: string)
    ensures HasScheme(r)
    ensures HasScheme(url) ==> r == url
    ensures !HasScheme(url) ==> r == "https://" + url
  {
    if HasScheme(url) then url else "https://" + url
  }

  lemma NormalizeIdempotent(url: string)
    ensures NormalizeUrl(NormalizeUrl(url)) == NormalizeUrl(url)
  {
  }

  // ------------------------------------------------------------------
  // Domain and name of one source

  /** A separator character occurring at `j` splits `s` into at least two pieces. */
  lemma SplitAtLeastTwo(s: string, c: char, j: int)
    requires 0 <= j < |s| && s[j] == c
    ensures |Split(s, [c])| >= 2
  {
    assert s[j..j + 1] == [c];
    ContainsAt(s, [c], j);
  }

  /** Two consecutive separator characters split `s` into at least three pieces. */
  lemma SplitAtLeastThree(s: string, c: char, j: int)
    requires 0 <= j && j + 1 < |s| && s[j] == c && s[j + 1] == c
    ensures |Split(s, [c])| >= 3
  {
    SplitAtLeastTwo(s, c, j);
    var k := IndexOf(s, [c]).value;
    assert k <= j by {
      assert s[j..j + 1] == [c];
      assert OccursAt(s, [c], j);
    }
    var rest := s[k + 1..];
    assert Split(s, [c]) == [s[..k]] + Split(rest, [c]);
    assert rest[j - k] == c;
    SplitAtLeastTwo(rest, c, j - k);
  }

  /** "://" holds two "/" in a row, so the third "/"-piece exists. */
  lemma SchemeSplit(src: string)
    requires Contains(src, "://")
    ensures |Split(src, "/")| >= 3
  {
    var i := ContainsWitness(src, "://");
    assert src[i..i + 3][1] == src[i + 1] && src[i..i + 3][2] == src[i + 2];
    SplitAtLeastThree(src, '/', i + 1);
  }

  /** A "." in the domain gives at least two labels. */
  lemma DotSplit(domain: string)
    requires Contains(domain, ".")
    ensures |Split(domain, ".")| >= 2
  {
    var i := ContainsWitness(domain, ".");
    assert domain[i..i + 1][0] == domain[i];
    SplitAtLeastTwo(domain, '.', i);
  }

  /** `src.split("/")[2] if "://" in src else src` (the in-page script computes the same). */
  function SourceDomain(src: string): string {
    if Contains(src, "://") then
      SchemeSplit(src);
      Split(src, "/")[2]
    else src
  }

  /** The domain is a "/"-free piece of a URL, or the whole source. */
  lemma SourceDomainSpec(src: string)
    ensures Contains(src, "://") ==> !Contains(SourceDomain(src), "/") && Contains(src, SourceDomain(src))
    ensures !Contains(src, "://") ==> SourceDomain(src) == src
  {
    if Contains(src, "://") {
      SchemeSplit(src);
      var parts := Split(src, "/");
      SplitPieceFree(src, '/', 2);
      SplitPieceIn(src, '/', 2);
    }
  }

  /** No piece of a split contains the separator. */
  lemma {:induction false} SplitPieceFree(s: string, c: char, n: nat)
    requires n < |Split(s, [c])|
    decreases |s|
    ensures !Contains(Split(s, [c])[n], [c])
  {
    SplitHead(s, [c]);
    if n > 0 {
      var k := IndexOf(s, [c]).value;
      SplitPieceFree(s[k + 1..], c, n - 1);
    }
  }

  /** Every piece of a split occurs in the string. */
  lemma {:induction false} SplitPieceIn(s: string, c: char, n: nat)
    requires n < |Split(s, [c])|
    decreases |s|
    ensures Contains(s, Split(s, [c])[n])
  {
    SplitHead(s, [c]);
    var h := Split(s, [c])[0];
    if n == 0 {
      assert s[0..|h|] == h;
      ContainsAt(s, h, 0);
    } else {
      var k := IndexOf(s, [c]).value;
      SplitPieceIn(s[k + 1..], c, n - 1);
      assert s[k + 1..] == s[k + 1..|s|];
      ContainsSlice(s, Split(s[k + 1..], [c])[n - 1], k + 1, |s|);
    }
  }

  /** `domain.split(".")[-2].capitalize() if "." in domain else domain`. */
  function RequestsName(domain: string): string {
    if Contains(domain, ".") then
      var parts := Split(domain, ".");
      DotSplit(domain);
      Capitalize(parts[|parts| - 2])
    else domain
  }

  /** `domain.split('.')[length - 2] || domain`: a missing or empty label falls back to the domain. */
  function InPageName(domain: string): (r: string)
    ensures r == "" ==> domain == ""
  {
    var parts := Split(domain, ".");
    if |parts| >= 2 && parts[|parts| - 2] != "" then parts[|parts| - 2] else domain
  }

  /** The category rule of the extension: "Analytics" iff the lower-cased domain holds a keyword. */
  function Category(domain: string): string {
    ContentScript.Category(domain)
  }

  // ------------------------------------------------------------------
  // Requests path: two loops with a seen set

  function Key(t: Tracker): string {
    t.name + ":" + t.domain
  }

  /** The record one source yields, or `None` when the source contains the scanned URL. */
  function Candidate(url: string, src: string): Option<Tracker> {
    if Contains(src, url) then None
    else
      var domain := SourceDomain(src);
      Some(Tracker(RequestsName(domain), Category(domain), false, domain))
  }

  function Candidates(url: string, srcs: seq<string>): seq<Tracker> {
    if |srcs| == 0 then []
    else
      Candidates(url, srcs[..|srcs| - 1])
      + match Candidate(url, srcs[|srcs| - 1]) { case None => [] case Some(t) => [t] }
  }

  /** Scripts are walked before iframes; images are not scanned on this path. */
  function RequestsTrackers(url: string, scripts: seq<string>, iframes: seq<string>): seq<Tracker> {
    Dedup.Dedup(Candidates(url, scripts + iframes), Key)
  }

  /** The list after offering one candidate. */
  function Offer(before: seq<Tracker>, c: Option<Tracker>): seq<Tracker> {
    match c
    case None => before
    case Some(t) => if Key(t) in Dedup.KeySet(before, Key) then before else before + [t]
  }

  lemma OfferStep(url: string, srcs: seq<string>, src: string, before: seq<Tracker>)
    requires before == Dedup.Dedup(Candidates(url, srcs), Key)
    ensures Offer(before, Candidate(url, src)) == Dedup.Dedup(Candidates(url, srcs + [src]), Key)
  {
    assert (srcs + [src])[..|srcs|] == srcs;
    var c := Candidates(url, srcs + [src]);
    if Candidate(url, src).Some? {
      assert c == Candidates(url, srcs) + [Candidate(url, src).value];
      assert c[..|c| - 1] == Candidates(url, srcs);
    } else {
      assert c == Candidates(url, srcs);
    }
  }

  /**
   * One `for ... in soup.find_all(...)` loop: a source containing the URL
   * is skipped, a new `name:domain` key is recorded and its tracker
   * appended, a seen key is skipped.
   */
  method ScanSources(url: string, srcs: seq<string>, trackers0: seq<Tracker>, seen0: set<string>, ghost done: seq<string>)
    returns (trackers: seq<Tracker>, seen: set<string>)
    requires trackers0 == Dedup.Dedup(Candidates(url, done), Key) && seen0 == Dedup.KeySet(trackers0, Key)
    ensures trackers == Dedup.Dedup(Candidates(url, done + srcs), Key)
    ensures seen == Dedup.KeySet(trackers, Key)
  {
    trackers, seen := trackers0, seen0;
    var i := 0;
    assert done + srcs[..0] == done;
    while i < |srcs|
      invariant 0 <= i <= |srcs|
      invariant trackers == Dedup.Dedup(Candidates(url, done + srcs[..i]), Key)
      invariant seen == Dedup.KeySet(trackers, Key)
    {
      var src := srcs[i];
      OfferStep(url, done + srcs[..i], src, trackers);
      if !Contains(src, url) {
        var domain := SourceDomain(src);
        var name := RequestsName(domain);
        var key := name + ":" + domain;
        if key !in seen {
          seen := seen + {key};
          var t := Tracker(name, Category(domain), false, domain);
          Dedup.KeySetSnoc(trackers, t, Key);
          trackers := trackers + [t];
        }
      }
      SnocSlice(done, srcs, i);
      i := i + 1;
    }
    PrefixAll(srcs);
  }

  /** The scripts loop, then the iframes loop, sharing one list and one seen set. */
  method ScanRequestsPage(url: string, scripts: seq<string>, iframes: seq<string>) returns (trackers: seq<Tracker>)
    ensures trackers == RequestsTrackers(url, scripts, iframes)
  {
    var seen: set<string>;
    assert [] + scripts == scripts;
    trackers, seen := ScanSources(url, scripts, [], {}, []);
    trackers, seen := ScanSources(url, iframes, trackers, seen, scripts);
  }

  /**
   * Keys are unique across both loops; every tracker comes from a source
   * that does not contain the URL, with blocked = false and the category
   * of its domain; every key some source yields is reported, first source
   * (scripts before iframes) winning.
   */
  lemma RequestsTrackersSpec(url: string, scripts: seq<string>, iframes: seq<string>)
    ensures var ts := RequestsTrackers(url, scripts, iframes);
      && Dedup.UniqueKeys(ts, Key)
      && Dedup.KeySet(ts, Key) == Dedup.KeySet(Candidates(url, scripts + iframes), Key)
      && ts == Dedup.KeepFirsts(Candidates(url, scripts + iframes), Key)
      && (forall t :: t in ts ==> exists src :: src in scripts + iframes && !Contains(src, url) && Candidate(url, src) == Some(t))
      && (forall t :: t in ts ==> !t.blocked && t.category == Category(t.domain))
  {
    var c := Candidates(url, scripts + iframes);
    Dedup.DedupUnique(c, Key);
    Dedup.DedupKeySet(c, Key);
    Dedup.DedupIsKeepFirsts(c, Key);
    Dedup.DedupFromInput(c, Key);
    CandidatesFrom(url, scripts + iframes);
  }

  lemma {:induction false} CandidatesFrom(url: string, srcs: seq<string>)
    ensures forall t :: t in Candidates(url, srcs) ==>
      exists src :: src in srcs && !Contains(src, url) && Candidate(url, src) == Some(t)
  {
    if |srcs| > 0 {
      var p := srcs[..|srcs| - 1];
      CandidatesFrom(url, p);
      forall t | t in Candidates(url, srcs)
        ensures exists src :: src in srcs && !Contains(src, url) && Candidate(url, src) == Some(t)
      {
        if t in Candidates(url, p) {
          var src :| src in p && !Contains(src, url) && Candidate(url, src) == Some(t);
          assert src in srcs;
        } else {
          assert Candidate(url, srcs[|srcs| - 1]) == Some(t);
        }
      }
    }
  }

  // ------------------------------------------------------------------
  // In-page script: filter, map, then keep the first of each (lower-cased name, domain)

  function InPageTracker(src: string): Tracker {
    var domain := SourceDomain(src);
    Tracker(InPageName(domain), Category(domain), false, domain)
  }

  /** `.filter(el => !el.src.includes(location.hostname)).map(...)`. */
  function InPageCandidates(hostname: string, srcs: seq<string>): (ts: seq<Tracker>)
    ensures |ts| <= |srcs|
    ensures forall t :: t in ts <==> exists src :: src in srcs && !Contains(src, hostname) && t == InPageTracker(src)
  {
    if |srcs| == 0 then []
    else
      var rest := InPageCandidates(hostname, srcs[1..]);
      var ts := (if Contains(srcs[0], hostname) then [] else [InPageTracker(srcs[0])]) + rest;
      assert forall src :: src in srcs <==> src == srcs[0] || src in srcs[1..];
      ts
  }

  /** The in-page dedup key: the name compared case-insensitively, the domain exactly. */
  function InPageKey(t: Tracker): (string, string) {
    (Lower(t.name), t.domain)
  }

  /** `trackers.filter((t, i, arr) => arr.findIndex(same key) === i)`. */
  function InPageTrackers(hostname: string, srcs: seq<string>): seq<Tracker> {
    Dedup.KeepFirsts(InPageCandidates(hostname, srcs), InPageKey)
  }

  /**
   * The `findIndex` filter keeps exactly the first tracker of each key, so
   * the in-page result agrees with a left-to-right pass over a seen set and
   * never holds two trackers with the same key.
   */
  lemma InPageTrackersSpec(hostname: string, srcs: seq<string>)
    ensures var c := InPageCandidates(hostname, srcs);
      && InPageTrackers(hostname, srcs) == Dedup.Dedup(c, InPageKey)
      && Dedup.UniqueKeys(InPageTrackers(hostname, srcs), InPageKey)
      && Dedup.KeySet(InPageTrackers(hostname, srcs), InPageKey) == Dedup.KeySet(c, InPageKey)
      && (forall j :: 0 <= j < |c| && Dedup.IsFirst(c, InPageKey, j) ==> c[j] in InPageTrackers(hostname, srcs))
  {
    var c := InPageCandidates(hostname, srcs);
    Dedup.DedupIsKeepFirsts(c, InPageKey);
    Dedup.DedupUnique(c, InPageKey);
    Dedup.DedupKeySet(c, InPageKey);
    Dedup.KeepFirstsComplete(c, InPageKey);
  }

  // ------------------------------------------------------------------
  // Security headers

  /** `{h: headers.get(key(h), "Missing") for h in security_headers}`. */
  function DetectedHeaders(get: string -> Option<string>): (m: map<string, string>)
    ensures m.Keys == set h | h in SecurityHeaderNames
    ensures forall h :: h in m ==> m[h] == (if get(h).Some? then get(h).value else "Missing")
  {
    map h | h in SecurityHeaderNames :: if get(h).Some? then get(h).value else "Missing"
  }

  /** The headers the browser path reads: a fresh, empty `Headers` object. */
  const BrowserHeaders: map<string, string> := map[]

  /** Python `dict.get` without a default. */
  function DictGet(d: map<string, string>, k: string): Option<string> {
    if k in d then Some(d[k]) else None
  }

  /** `headers.get(h.lower(), ...)` on the browser path's headers. */
  function BrowserGet(h: string): Option<string> {
    DictGet(BrowserHeaders, Lower(h))
  }

  /** On the browser path every one of the three headers is reported missing. */
  lemma BrowserHeadersMissing()
    ensures var m := DetectedHeaders(BrowserGet);
      && m.Keys == (set h | h in SecurityHeaderNames)
      && forall k :: k in m ==> m[k] == "Missing"
  {
  }

  // ------------------------------------------------------------------
  // analyze_website

  /** What one browser attempt saw: the page's host name, its resource sources in document order, cookie names. */
  datatype Rendered = Rendered(hostname: string, srcs: seq<string>, cookies: seq<string>)

  /** What the fallback fetch returned. */
  datatype RequestsReply =
    | RequestsFailed(error: string)
    | RequestsOk(status: int, headers: string -> Option<string>, cookies: seq<string>,
                 scripts: seq<string>, iframes: seq<string>)

  datatype ScanReport =
    | Report(url: string, status: int, securityHeaders: map<string, string>, cookies: seq<string>, trackers: seq<Tracker>)
    | ScanError(error: string, url: string)

  function BrowserReport(url: string, r: Rendered): ScanReport {
    Report(url, 200, DetectedHeaders(BrowserGet), r.cookies, InPageTrackers(r.hostname, r.srcs))
  }

  function RequestsReport(url: string, reply: RequestsReply): ScanReport {
    match reply
    case RequestsFailed(e) => ScanError(e, url)
    case RequestsOk(status, headers, cookies, scripts, iframes) =>
      Report(url, status, DetectedHeaders(headers), cookies, RequestsTrackers(url, scripts, iframes))
  }

  /** The index of the first successful attempt among the first `n`. */
  function FirstSuccess(attempt: nat -> Option<Rendered>, from: nat, n: nat): (r: Option<nat>)
    decreases n - from
    ensures r.Some? ==> from <= r.value < n && attempt(r.value).Some?
    ensures r.Some? ==> forall a :: from <= a < r.value ==> attempt(a).None?
    ensures r.None? ==> forall a :: from <= a < n ==> attempt(a).None?
  {
    if from >= n then None
    else if attempt(from).Some? then Some(from)
    else FirstSuccess(attempt, from + 1, n)
  }

  /**
   * `analyze_website`: normalise the URL, try the browser up to three
   * times and report the first attempt that succeeds; otherwise fetch the
   * page and scan it, and report the error if that fails too.
   */
  method AnalyzeWebsite(url0: string, attempt: nat -> Option<Rendered>, reply: RequestsReply) returns (report: ScanReport)
    ensures var url := NormalizeUrl(url0);
      match FirstSuccess(attempt, 0, Attempts)
      case Some(a) => report == BrowserReport(url, attempt(a).value)
      case None => report == RequestsReport(url, reply)
  {
    var url := NormalizeUrl(url0);
    var n := 0;
    while n < Attempts
      invariant 0 <= n <= Attempts
      invariant forall a :: 0 <= a < n ==> attempt(a).None?
    {
      var rendered := attempt(n);
      if rendered.Some? {
        return BrowserReport(url, rendered.value);
      }
      n := n + 1;
    }
    match reply {
      case RequestsFailed(e) =>
        report := ScanError(e, url);
      case RequestsOk(status, headers, cookies, scripts, iframes) =>
        var trackers := ScanRequestsPage(url, scripts, iframes);
        report := Report(url, status, DetectedHeaders(headers), cookies, trackers);
    }
  }
}
