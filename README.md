# PrivacyPulse AI — a verified model of its scanning core

PrivacyPulse AI rates how a website treats personal data. It has three parts:

- a browser extension whose content script finds the page's privacy-policy link, detects third-party trackers among the page's resources and merges them into the backend's scan result;
- a popup that renders the stored result;
- a Python backend plus a React dashboard.

The backend fetches and summarises the policy with two models, one from Gemini and one from Hugging Face. It then derives eight numeric features, scores the risk, scans the website for trackers and security headers, and caches the result. The dashboard streams a scan (Analyze), lists the history (Reports), aggregates it on a map (Home) and compares two sites (Compare).

This project models that core in Dafny and proves what each part promises. Every foreign call is a parameter of the model. These include the `URL` constructor, `JSON.parse` and `json.loads`, Gemini, the summariser, the trained models, policy fetching, the web scan, the country lookup and the database write. The properties then hold for every behaviour of those calls.

| file | module | models |
|---|---|---|
| base.dfy | `Base` | shared string helpers: substring search, `split`/`join`, ASCII case mapping, JavaScript `trim` and Python `strip`, `Math.round` |
| json.dfy | `Json` | the JSON value both languages decode into, property lookup, JavaScript and Python truthiness |
| dedup.dfy | `Dedup` | first-occurrence-wins deduplication: the seen-set loop and the `findIndex(...) === i` filter, proved equal |
| content_script.dfy | `ContentScript` | extension/content.js: policy link and its two overrides, `getDomain`, `getTrackerName`, `processElement` over scripts/iframes/images, the merge with the backend's trackers |
| popup.dfy | `Popup` | extension/popup/popup.js: the summary chain, the score colour band, the tracker and cookie lists |
| analyze_page.dfy | `AnalyzePage` | Analyze.jsx: `cleanRepetitiveText`, the display cut, `doScan`'s stream loop and final parse / repair / fallback |
| web_scanner.dfy | `WebScanner` | web_scanner.py: URL normalisation, the browser retries, the in-page dedup, the requests-path loops, security headers, the error result |
| ai_service.dfy | `AiService` | ai_service.py: fence stripping, chunking, the Gemini call, the chunked path, `ai_summarize` and its bullet fallbacks |
| analyze_policy.dfy | `AnalyzePolicy` | analyze_policy.py: `process_policy`'s validation and five-bullet normalisation |
| feature_extractor.dfy | `FeatureExtractor` | feature_extractor.py: the eight features |
| score_engine.dfy | `ScoreEngine` | score_engine.py: `predict_risk`, its fallback score and the three bands |
| model_service.dfy | `ModelService` | model_service.py: the `re.findall` keyword counts and `predict_transparency` |
| scan_route.dfy | `ScanRoute` | routes/scan.py: the cache, the fallback URLs, the pipeline and the failure result |
| reports_page.dfy | `ReportsPage` | Reports.jsx: row format, metric cards, search, visible rows, the PDF cursor |
| home_page.dfy | `HomePage` | Home.jsx: statistics, the safe/high-risk split, map markers, zoom |
| compare_page.dfy | `ComparePage` | Compare.jsx: the site record, the difference, the winner sentence, the data-collected label |

Where the source updates state step by step, the model does too:

- The content script's detection pass is a class, `ContentScript.TrackerScan`. It holds `trackerList` and `seenTrackers`.
- `doScan` drives a class, `AnalyzePage.AnalyzeView`. It holds `result`, `warning` and `running`, and a ghost log of every result shown.
- The scan route's `CACHE` is a field of `ScanRoute.ScanRouter`.
- The popup's DOM writes are fields of `Popup.PopupView`.
- The loops of `_call_gemini`, `summarize_large_policy_with_gemini`, the requests-path scanner and `generatePDF` are methods with loop invariants.

Each of these methods is proved equal to a specification function. The properties are then proved about that function.

`cleanRepetitiveText` is not idempotent: it trims before it slices to 1000 characters, so a cut that ends in white space is trimmed again by a second pass. The model follows the code, and `AnalyzePage.CleanNotIdempotent` exhibits such an input.

## Model

| member | source | states |
|---|---|---|
| ContentScript.FindPolicyAnchor | extension/content.js:7-11 | the chosen anchor is the first whose lower-cased text mentions "privacy", "legal" or "policy"; none is chosen iff no anchor does |
| ContentScript.PolicyUrlChoice | extension/content.js:12-27 | a grok.com session link becomes https://x.ai/legal, any other flipkart.com link the fixed Flipkart policy page, any other link is kept, and no anchor or an empty href gives no URL |
| ContentScript.GrokFallbackIsNotFlipkart | extension/content.js:15-23 | the grok.com override is never rewritten by the later flipkart.com override |
| ContentScript.BackendOrFallback | extension/content.js:34-48 | a successful backend reply is used unchanged; a failed or non-ok call gives "Backend scan failed", score 0.0, "Unknown" and empty lists |
| ContentScript.GetDomainSpec | extension/content.js:97-108 | a returned domain is non-empty, lower-case, and never the page's own host name |
| ContentScript.GetTrackerNameSpec | extension/content.js:111-122 | the name is never empty; for a parsable URL it is null exactly when the host's first label equals the page's label, and otherwise is that label ("unknown" if empty), which holds no "."; for an unparsable URL it is the last path segment before "?" when that is non-empty and does not contain the domain, else the domain's first label ("unknown" if empty), which holds no "." |
| ContentScript.Category | extension/content.js:65 | "Analytics" iff the lower-cased domain contains google, facebook, doubleclick, ads or pixel; "Unknown" otherwise |
| ContentScript.CandidateSpec | extension/content.js:57-66 | an element with an empty src, a src containing the page host, or no domain yields nothing; a record has blocked = false, its loop's tag, its domain's category and the derived name |
| ContentScript.CandidatesFromElements | extension/content.js:57-66 | every candidate record comes from some element of the pass |
| ContentScript.TrackerScan.constructor | extension/content.js:51-52 | the pass starts with an empty list and an empty seen set |
| ContentScript.TrackerScan.ProcessElement | extension/content.js:56-67 | one `processElement` appends the element's record exactly when it yields one whose key was not seen, keeping the seen set equal to the list's keys |
| ContentScript.DedupStep | extension/content.js:62-66 | one more element processed gives the first-wins deduplication of the candidates one element longer |
| ContentScript.ProcessAll | extension/content.js:70-74 | a `forEach` loop leaves the list equal to the first-wins deduplication of all candidates seen so far |
| ContentScript.DetectTrackers | extension/content.js:69-74 | the three loops (scripts, then iframes, then images) produce the specified tracker list |
| ContentScript.DetectedTrackersSpec | extension/content.js:62-74 | keys `name:domain` are unique, the first element yielding a key wins, and every key any element yields is recorded |
| ContentScript.NewLocal | extension/content.js:78 | the kept local records are exactly those whose lower-cased key is not a backend key |
| ContentScript.NewLocalAppend | extension/content.js:78 | the filter of a concatenation is the concatenation of the filtered parts, so the detected order is kept |
| ContentScript.NewLocalSingle | extension/content.js:78 | one detected record is kept exactly when its lower-cased key is not a backend key |
| ContentScript.MergeTrackersSpec | extension/content.js:76-79 | the merged list is the backend's trackers unchanged and in order, followed by exactly the detected records whose key the backend lacks, in their detected order |
| ContentScript.RunContentScript | extension/content.js:6-89 | without a policy link the error object is stored; otherwise the backend summary (or the fixed fallback) is stored with the detected trackers merged in |
| Dedup.DedupKeySet | extension/content.js:62-64 | the seen-set pass keeps exactly the keys of its input |
| Dedup.DedupUnique | extension/content.js:62-64 | the seen-set pass never keeps two elements with one key |
| Dedup.DedupIsKeepFirsts | backend/utils/web_scanner.py:43-45 | the seen-set loop and the `findIndex(...) === i` filter agree on every input |
| Dedup.KeepFirstsSound | backend/utils/web_scanner.py:43-45 | every element the filter keeps is the first of its key |
| Dedup.KeepFirstsComplete | backend/utils/web_scanner.py:43-45 | every first occurrence of a key is kept |
| Dedup.DedupFromInput | backend/utils/web_scanner.py:91-94 | the loop keeps only elements of its input |
| AnalyzePage.RunEnd | privacy_pulse/src/pages/Analyze.jsx:76 | a run of `(Privacy & Terms\s*)+` ends where neither white space nor another copy follows |
| AnalyzePage.CleanSpec | privacy_pulse/src/pages/Analyze.jsx:74-83 | the cleaned text has at most 1000 characters and no leading white space, and is a prefix of the trimmed, collapsed text (all of it when that fits) |
| AnalyzePage.CleanWithoutPhrase | privacy_pulse/src/pages/Analyze.jsx:76-82 | text without the phrase becomes its trimmed form cut to 1000 characters |
| AnalyzePage.RunEndCovers | privacy_pulse/src/pages/Analyze.jsx:76 | the run matched by `(Privacy & Terms\s*)+` consists only of copies of the phrase and white space |
| AnalyzePage.CollapseLeftmostRun | privacy_pulse/src/pages/Analyze.jsx:76-80 | only the leftmost run of the phrase is replaced, by one "Privacy & Terms ", and the text around it is kept; the run removed starts with the phrase, is made of copies of it and white space only, and ends where neither follows |
| AnalyzePage.CleanNotIdempotent | privacy_pulse/src/pages/Analyze.jsx:82 | some text is changed by a second cleaning |
| AnalyzePage.TruncatedSummary | privacy_pulse/src/pages/Analyze.jsx:234-238 | a summary over 500 characters that is not shown in full becomes exactly its first 500 characters and "..."; a summary shown in full or of at most 500 characters is unchanged; not shown in full, the text has at most 503 characters |
| AnalyzePage.FromParsed | privacy_pulse/src/pages/Analyze.jsx:150-159 | building the result throws exactly for a `null` reply or a summary that is not a string |
| AnalyzePage.FromParsedFields | privacy_pulse/src/pages/Analyze.jsx:151-159 | each of score, bullets, highlights, policy, tone and risks is the reply's non-null value when present and its default (0, [], [], [], "unknown", []) otherwise; the summary is the cleaned `summary ?? accumulated` |
| AnalyzePage.RepairSpec | privacy_pulse/src/pages/Analyze.jsx:166-172 | the repaired text extends the original by at most two characters and ends with "]" iff it contains "[", else with "}" |
| AnalyzePage.Partials | privacy_pulse/src/pages/Analyze.jsx:139-143 | one partial result is published per chunk |
| AnalyzePage.PartialsStep | privacy_pulse/src/pages/Analyze.jsx:133-144 | reading one more chunk appends it to the text and publishes one result whose only new field is the cleaned text |
| AnalyzePage.FinishSpec | privacy_pulse/src/pages/Analyze.jsx:146-202 | a strictly parsed reply gives its result with no warning; when the strict parse fails and the repaired text parses, the repaired reply's result with no warning; the malformed warning is set iff both fail, and then only the summary changes; JSON never gets the incomplete warning; plain text keeps the start result with the cleaned summary and warns iff that does not end with "." |
| AnalyzePage.FinishFromLast | privacy_pulse/src/pages/Analyze.jsx:185-198 | the final step depends on the streamed result only through its summary |
| AnalyzePage.AnalyzeView.constructor | privacy_pulse/src/pages/Analyze.jsx:39-50 | the page starts with the empty result, tone "unknown", no warning and not running |
| AnalyzePage.AnalyzeView.SetResult | privacy_pulse/src/pages/Analyze.jsx:140-143 | a published result becomes the page's result and is logged as shown |
| AnalyzePage.AnalyzeView.Feed | privacy_pulse/src/pages/Analyze.jsx:136-143 | one loop pass appends the chunk and publishes the result with only the summary replaced |
| AnalyzePage.AnalyzeView.ReadAll | privacy_pulse/src/pages/Analyze.jsx:133-144 | the loop leaves the in-order concatenation of the chunks and publishes exactly the partial results |
| AnalyzePage.AnalyzeView.ReadStream | privacy_pulse/src/pages/Analyze.jsx:122-202 | a streamed body publishes exactly the partial results and ends in the outcome of the stream: an error when a read throws, otherwise the final step on the whole text |
| AnalyzePage.AnalyzeView.Respond | privacy_pulse/src/pages/Analyze.jsx:100-214 | the body of the `try` with its `catch` ends in the outcome of every kind of response and publishes partial results only for a stream |
| AnalyzePage.StreamOutcome | privacy_pulse/src/pages/Analyze.jsx:133-202 | the outcome of a stream is the failure result when a read throws and otherwise the final step on the concatenated chunks, whatever summary the stream left |
| AnalyzePage.PublishedLog | privacy_pulse/src/pages/Analyze.jsx:90-198 | the results `doScan` publishes are the start result, the stream's partial results, then the outcome's result |
| AnalyzePage.AnalyzeView.DoScan | privacy_pulse/src/pages/Analyze.jsx:85-218 | no URL changes nothing; otherwise the final result and warning are those of every outcome (ok, repaired, malformed, plain text, empty body, error), every partial is published in order, and `running` ends false |
| WebScanner.NormalizeUrl | backend/utils/web_scanner.py:9-10 | the URL always has an http(s) scheme; one that had it is unchanged, any other gets "https://" prepended |
| WebScanner.NormalizeIdempotent | backend/utils/web_scanner.py:9-10 | normalising twice is normalising once |
| WebScanner.SchemeSplit | backend/utils/web_scanner.py:88 | a source containing "://" has a third "/"-piece, so the domain lookup never fails |
| WebScanner.DotSplit | backend/utils/web_scanner.py:89 | a domain containing "." has a second-to-last label |
| WebScanner.SourceDomainSpec | backend/utils/web_scanner.py:88 | with "://" the domain is a "/"-free piece of the source; otherwise it is the whole source |
| WebScanner.InPageName | backend/utils/web_scanner.py:36 | the in-page name is empty only for an empty domain |
| WebScanner.OfferStep | backend/utils/web_scanner.py:87-94 | one loop iteration gives the first-wins deduplication of the candidates one source longer |
| WebScanner.ScanSources | backend/utils/web_scanner.py:85-94 | one loop leaves the list deduplicated over all sources so far and the seen set equal to its keys |
| WebScanner.ScanRequestsPage | backend/utils/web_scanner.py:83-104 | the script loop, then the iframe loop, produce the specified tracker list |
| WebScanner.RequestsTrackersSpec | backend/utils/web_scanner.py:83-104 | keys are unique across both loops, the first source wins (scripts before iframes), every key is reported, no source containing the URL contributes, and each tracker has blocked = False and its domain's category |
| WebScanner.CandidatesFrom | backend/utils/web_scanner.py:85-94 | every candidate comes from a source not containing the URL |
| WebScanner.InPageCandidates | backend/utils/web_scanner.py:32-42 | the candidates are exactly the mapped sources that do not contain the page host |
| WebScanner.InPageTrackersSpec | backend/utils/web_scanner.py:43-45 | the in-page filter keeps the first tracker of each (case-insensitive name, domain) pair, equals the seen-set pass, and reports every pair |
| WebScanner.DetectedHeaders | backend/utils/web_scanner.py:80-81 | the map has exactly the three header names, each mapped to its value or "Missing" |
| WebScanner.BrowserHeadersMissing | backend/utils/web_scanner.py:49-51 | on the browser path all three headers are "Missing" |
| WebScanner.FirstSuccess | backend/utils/web_scanner.py:12-66 | the reported attempt is the first of the three that succeeds; none succeeds iff all failed |
| WebScanner.AnalyzeWebsite | backend/utils/web_scanner.py:7-115 | the first successful browser attempt is reported; otherwise the requests path's report or its error result |
| AiService.SplitLinesJoin | backend/services/ai_service.py:28 | `splitlines` undoes `"\n".join` of break-free lines followed by a line break |
| AiService.FencedLines | backend/services/ai_service.py:28 | a fenced body of any number of lines splits into exactly the header line, the body's lines and the closing fence |
| AiService.CleanFenced | backend/services/ai_service.py:27-30 | a fenced body of any number of lines comes back joined by "\n" and stripped, without its fences |
| AiService.CleanFencedOneLine | backend/services/ai_service.py:27-31 | a fenced text on one line has at most two lines and is only stripped |
| AiService.CleanUnfenced | backend/services/ai_service.py:31 | text not both starting and ending with a fence is only stripped |
| AiService.ChunkTextSpec | backend/services/ai_service.py:33-35 | the chunks concatenate back to the text; empty text iff no chunks; each chunk is non-empty and at most n long, and all but the last are exactly n |
| AiService.SentPrompt | backend/services/ai_service.py:43-44 | the prompt sent is a prefix of at most 12000 characters, the whole prompt when it fits |
| AiService.PartTextEmpty | backend/services/ai_service.py:57-58 | a part contributes nothing iff its stripped text is empty |
| AiService.PartsTextEmpty | backend/services/ai_service.py:56-58 | a candidate's parts contribute nothing iff none has non-blank text |
| AiService.CandidateTextEmpty | backend/services/ai_service.py:54-58 | a candidate without content or parts contributes nothing |
| AiService.CandidatesTextEmpty | backend/services/ai_service.py:52-58 | the collected text is empty iff no part of any candidate has non-blank text |
| AiService.GeminiTextSpec | backend/services/ai_service.py:38-63 | the call never returns an empty string; an empty prompt returns the fallback or the fixed message; an error returns the fallback when there is one |
| AiService.CollectParts | backend/services/ai_service.py:56-58 | the inner loop appends exactly the parts' text |
| AiService.CollectText | backend/services/ai_service.py:52-58 | the nested loops collect exactly the specified text |
| AiService.CallGemini | backend/services/ai_service.py:38-63 | `_call_gemini` returns the specified text |
| AiService.Preview | backend/services/ai_service.py:78-80 | the fallback preview is at most 503 characters: a prefix of the text and "..." |
| AiService.RefinedSpec | backend/services/ai_service.py:71-91 | a stripped chunk under 100 characters keeps the summariser's text; a longer one is never empty, and when the model call fails it is the summariser's text (or the error text when that is empty); a failing summariser gives the chunk's preview |
| AiService.RefinedOffline | backend/services/ai_service.py:71-91 | with the summariser and the model failing, a chunk's summary is its preview |
| AiService.LargePolicyOffline | backend/services/ai_service.py:66-104 | with the summariser and the model failing on every call, each chunk's summary is its stripped preview and the result is the preview of those summaries joined by spaces |
| AiService.LargePolicyNonEmpty | backend/services/ai_service.py:93-104 | the chunked path never returns an empty text |
| AiService.RefineChunk | backend/services/ai_service.py:71-91 | one pass of the loop computes the chunk's refined summary whose cases `RefinedSpec` states |
| AiService.SummarizeLargePolicy | backend/services/ai_service.py:66-104 | the loop over the chunks and the combining call return the specified text |
| AiService.StrippedNonEmpty | backend/services/ai_service.py:155 | the kept pieces are stripped, non-empty and no more than the pieces |
| AiService.SentenceBullets | backend/services/ai_service.py:140 | the sentence bullets are at most five, each non-empty and stripped |
| AiService.SearchBullets | backend/services/ai_service.py:150-152 | a found bullet group never contains "]" |
| AiService.BracketGroup | backend/services/ai_service.py:150 | the captured group `([^\]]*)` stops at the first "]" and so never contains one |
| AiService.BulletsAt | backend/services/ai_service.py:150 | a match of the bullets pattern at a position captures a group without "]" |
| AiService.RawBullets | backend/services/ai_service.py:153 | the bracketed list gives at most one bullet per comma-separated piece |
| AiService.AiSummarize | backend/services/ai_service.py:107-160 | `ai_summarize` returns the specified result on each path (guard, chunked or single call, JSON, decode error, exception) |
| AiService.SummarizeSpec | backend/services/ai_service.py:112-160 | empty text or under 80 stripped characters gives the fixed result; otherwise text over 12000 characters takes the chunked path and shorter text one model call on the summariser's text, and a result that cannot be built gives "AI summarization unavailable: …"; output parsing as a dictionary gives its bullets when truthy, else its summary's sentence bullets, with summary, tone and risks defaulting to the output, "unknown" and []; a non-dictionary parse, or falsy bullets with a non-string summary, cannot be built; non-JSON output gives tone "unknown", no risks, the stripped output as summary, and the sentence bullets when no bracketed list is found |
| AnalyzePolicy.Padding | backend/utils/analyze_policy.py:46 | the padding is 5 − n copies of "Missing bullet", none when n ≥ 5 |
| AnalyzePolicy.FiveBulletsSpec | backend/utils/analyze_policy.py:46 | the result has exactly five bullets: the first originals in order, then padding; five bullets are unchanged |
| AnalyzePolicy.ProcessPolicySpec | backend/utils/analyze_policy.py:37-55 | missing keys give the incomplete result; non-list bullets an error; a list of the wrong length is normalised to five keeping the other fields; five bullets with a string or list summary return the response unchanged, and with any other summary give the error result |
| AnalyzePolicy.OtherResponse | backend/utils/analyze_policy.py:33-36 | a response that is neither a string nor a dictionary gives the error result; a dictionary goes straight to validation |
| AnalyzePolicy.NoTextSpec | backend/utils/analyze_policy.py:7-9 | empty text gives the fixed "No policy text found" result |
| AnalyzePolicy.StringResponse | backend/utils/analyze_policy.py:33-34 | a string response is decoded first; one that does not decode gives the error result |
| AnalyzePolicy.ResultShape | backend/utils/analyze_policy.py:5-55 | every result has the four keys and a bullet list that is empty or has exactly five items |
| FeatureExtractor.ExtractFeaturesSpec | backend/utils/feature_extractor.py:3-17 | it raises exactly when `risks` has no `len`; otherwise the length is the text's (absent text counts as empty), the sentence count is the number of "." or 1 when there is none, the words per sentence, each of the four flags is 1 iff the lower-cased text contains one of its keywords, and the risk count is the `len` of `risks` (0 when absent) |
| FeatureExtractor.NonDictSummary | backend/utils/feature_extractor.py:11 | a summary that is not a dictionary makes extraction raise |
| FeatureExtractor.KeysAreExpected | backend/utils/feature_extractor.py:19-28 | the returned keys are exactly the eight the risk scorer expects |
| FeatureExtractor.ExtractedScoreBounded | backend/utils/score_engine.py:33-41 | without a trained model, extracted features always score within [0, 100] |
| ScoreEngine.FeatureVector | backend/utils/score_engine.py:27 | the model's input lists the eight expected features in order, missing ones as 0 |
| ScoreEngine.ClassifySpec | backend/utils/score_engine.py:41 | "Safe" iff score < 33, "Neutral" iff 33 ≤ score < 66, "Risky" otherwise, and the bands are monotone |
| ScoreEngine.FallbackSpec | backend/utils/score_engine.py:25-42 | without a model the fallback decides; it lies in [0, 100] for non-negative counts, is 100 from three risks, "Risky" from two, and "Safe" with 0 for no risks and a short text |
| ScoreEngine.FallbackMonotone | backend/utils/score_engine.py:35-39 | more risks and a longer text never lower the fallback score |
| ModelService.MatchAt | backend/services/model_service.py:23-27 | a match never runs past the end of the text |
| ModelService.MatchPattern | backend/services/model_service.py:23-27 | a keyword match is non-empty |
| ModelService.FirstAlt | backend/services/model_service.py:23-27 | an alternation matches iff one of its keywords matches |
| ModelService.CountPositive | backend/services/model_service.py:21-28 | a count is positive iff some keyword matches somewhere |
| ModelService.NoMatchNoCount | backend/services/model_service.py:21-28 | a text where no keyword of a group matches counts 0 for that group |
| ModelService.ScoreSpec | backend/services/model_service.py:56-65 | the score lies in [0, 100] for any risk points, negative ones included, and never rises when they do |
| ModelService.HeuristicSpec | backend/services/model_service.py:54-78 | score in [0, 100], confidence in [0, 1], "Safe" iff score > 75, "Neutral" iff 45 < score ≤ 75, "Risky" otherwise |
| ModelService.PredictSpec | backend/services/model_service.py:40-82 | without a trained model the heuristic decides; a model that raises gives score 0, "Unknown", confidence 0 |
| ScanRoute.FallbacksSpec | backend/routes/scan.py:34-38 | the candidates replace what follows the last "/" (or follow a URL without one) with "/privacy", "/legal", "/privacy-policy", in that order |
| ScanRoute.FirstHitSpec | backend/routes/scan.py:40-46 | the loop stops at the first candidate yielding text and uses its URL; all earlier ones yielded nothing |
| ScanRoute.LocateDirect | backend/routes/scan.py:28-32 | a URL that is not problematic and yields text is used as is |
| ScanRoute.ProblematicDropsText | backend/routes/scan.py:32-46 | a grok.com session URL always goes through the fallbacks, so its own text is dropped when they yield none |
| ScanRoute.ToTrackerInfos | backend/routes/scan.py:57-64 | the conversion succeeds with one item per tracker, or raises on the first that fails |
| ScanRoute.TrackerDefaults | backend/routes/scan.py:57-64 | names are kept, a missing category becomes "Analytics", a missing blocked flag false, and domains are dropped |
| ScanRoute.ScanSpec | backend/routes/scan.py:26-95 | a result is cached under the URL it reports; a failure is the fixed uncached result; no text gives "No policy text found", no features and the unknown risk; with text the features are those extracted from the text and its processed summary, the summary is that summary's `summary`, and the risk is `predict_risk` of the features |
| ScanRoute.ScanRouter.constructor | backend/routes/scan.py:15 | the cache starts empty |
| ScanRoute.ScanRouter.TryFallbacks | backend/routes/scan.py:40-46 | the fallback loop returns the first hit |
| ScanRoute.ScanRouter.ScanUrl | backend/routes/scan.py:17-95 | a cached URL is answered from the cache with nothing changed; otherwise the scan's result is returned and a success is stored under its key |
| ReportsPage.FormatAll | privacy_pulse/src/pages/Reports.jsx:21-32 | one row per document, in order; the page load fails iff some URL does not parse |
| ReportsPage.FormatSpec | privacy_pulse/src/pages/Reports.jsx:24-30 | status "Flagged" iff score > 50, else "Reviewed"; shared is the score text followed by "%"; a missing cookie list becomes [] |
| ReportsPage.CountIf | privacy_pulse/src/pages/Reports.jsx:44-46 | a card never counts more documents than there are |
| ReportsPage.TotalBounds | privacy_pulse/src/pages/Reports.jsx:38 | scores within [0, 100] total within [0, 100·n] |
| ReportsPage.RoundBounds | privacy_pulse/src/pages/Reports.jsx:39 | rounding keeps a value of [0, 100] within [0, 100] |
| ReportsPage.MetricsSpec | privacy_pulse/src/pages/Reports.jsx:37-47 | no data averages to 0; scores in [0, 100] average in [0, 100]; "Data Shared" is 100 minus the average; each count is at most the number of documents |
| ReportsPage.HighRiskIsFlagged | privacy_pulse/src/pages/Reports.jsx:28-46 | the "High Risk Sites" card counts exactly the rows marked "Flagged" |
| ReportsPage.Keep | privacy_pulse/src/pages/Reports.jsx:62-64 | filtering never adds rows |
| ReportsPage.KeepAppend | privacy_pulse/src/pages/Reports.jsx:62-64 | the filter keeps row order: it distributes over concatenation |
| ReportsPage.KeepMembers | privacy_pulse/src/pages/Reports.jsx:62-64 | the filter keeps exactly the rows whose lower-cased domain contains the lower-cased search |
| ReportsPage.EmptySearchKeepsAll | privacy_pulse/src/pages/Reports.jsx:60-66 | an empty search shows every report |
| ReportsPage.Visible | privacy_pulse/src/pages/Reports.jsx:82 | the visible rows are the first min(n, 10) |
| ReportsPage.PdfLayoutSpec | privacy_pulse/src/pages/Reports.jsx:72-78 | every report is written between lines 20 and 280, the cursor stays there, and the page count is between 1 and n + 1 |
| ReportsPage.GeneratePdf | privacy_pulse/src/pages/Reports.jsx:68-80 | the loop writes each report at the specified position and adds the specified pages |
| HomePage.AsList | privacy_pulse/src/pages/Home.jsx:29 | a list is kept; any other answer becomes a one-element list |
| HomePage.SumScoresBounds | privacy_pulse/src/pages/Home.jsx:33-35 | scores within [0, 100] sum within [0, 100·n] |
| HomePage.StatsSpec | privacy_pulse/src/pages/Home.jsx:29-45 | a single answer counts one site; an empty history gives average 0 and no cookies; scores in [0, 100] average in [0, 100] |
| HomePage.SumCookiesAppend | privacy_pulse/src/pages/Home.jsx:36-39 | the cookie total is additive over the history |
| HomePage.CountSafe | privacy_pulse/src/pages/Home.jsx:62 | the safe count is at most the history's length |
| HomePage.CountRisky | privacy_pulse/src/pages/Home.jsx:57 | the high-risk count is at most the history's length |
| HomePage.CountsPartition | privacy_pulse/src/pages/Home.jsx:53-65 | the high-risk and safe counts sum to the history's length |
| HomePage.Markers | privacy_pulse/src/pages/Home.jsx:67-87 | there are at most as many markers as entries |
| HomePage.MarkersAppend | privacy_pulse/src/pages/Home.jsx:67-87 | the markers of a concatenated history are those of each part in turn, so they follow the order of the entries |
| HomePage.MarkersSingle | privacy_pulse/src/pages/Home.jsx:67-87 | one entry gives its own marker when located and none otherwise |
| HomePage.MarkersSpec | privacy_pulse/src/pages/Home.jsx:67-87 | one marker per located entry; each marker comes from a located entry, and its risk is "Low" iff that entry is "Safe" |
| HomePage.ZeroLatitudeDropped | privacy_pulse/src/pages/Home.jsx:69 | an entry at latitude 0 gets no marker |
| HomePage.ZoomStaysInRange | privacy_pulse/src/pages/Home.jsx:50-51 | any sequence of clicks keeps the zoom within [1, 4] |
| HomePage.ZoomMonotone | privacy_pulse/src/pages/Home.jsx:50-51 | zooming in never zooms out and the reverse; the limits are fixed points |
| ComparePage.Trackers | privacy_pulse/src/pages/Compare.jsx:27 | a tracker count shown as a number is at least 1 |
| ComparePage.FetchSiteSpec | privacy_pulse/src/pages/Compare.jsx:23-29 | no trackers (or none listed) reads "Unknown", otherwise their count; a missing or empty summary reads "No summary available" |
| ComparePage.FailedFetchIsNull | privacy_pulse/src/pages/Compare.jsx:30-33 | a failed fetch stores null |
| ComparePage.DiffSpec | privacy_pulse/src/pages/Compare.jsx:42 | the difference is symmetric, never negative, 0 when a side is missing, and 0 iff the scores are equal |
| ComparePage.WinnerSpec | privacy_pulse/src/pages/Compare.jsx:115-117 | site b is named iff its score is strictly higher; a tie names site a |
| ComparePage.DataCollectedSpec | privacy_pulse/src/pages/Compare.jsx:141 | "Minimal" iff the score is a number above 80 |
| Popup.ScoreClassSpec | extension/popup/popup.js:16-18 | exactly one class: "low" iff score ≤ 25, "medium" iff 25 < score ≤ 60, "high" otherwise |
| Popup.ScoreDefault | extension/popup/popup.js:14 | the score falls back to 50 ("medium") only when null or absent; 0 is kept ("low") |
| Popup.SummaryTextSpec | extension/popup/popup.js:10 | a nested summary first, then the summary itself, then "No summary" |
| Popup.CookieItemsCount | extension/popup/popup.js:31-33 | the cookie items are empty iff the list is |
| Popup.PopupView.AppendTrackers | extension/popup/popup.js:23-25 | the loop appends exactly one item per tracker and changes nothing else |
| Popup.PopupView.AppendCookies | extension/popup/popup.js:31-33 | the loop appends exactly one item per cookie and changes nothing else |
| Popup.PopupView.Render | extension/popup/popup.js:1-35 | nothing stored writes only "No scan performed yet."; otherwise site, summary, score and one colour class are written, the lists or their placeholders; a throwing `forEach` stops the rendering where the browser would, and a truthy non-list cookie value leaves the cookie list emptied |

## Left out

- Network, browser and storage I/O are inputs, not modelled: `fetch`, `chrome.storage`, the 5-second wait, Playwright and requests navigation, policy fetching, the IP and country lookups, MongoDB and the FastAPI wiring. The routers other than `/api/scan/` are not part of this model.
- Foreign libraries are parameters whose internals are not modelled: the `URL` constructor, `JSON.parse` and `json.loads`, `TextDecoder` (chunks arrive decoded), Gemini, the Hugging Face summariser, joblib and scikit-learn models, jsPDF's `splitTextToSize` (each report's line count is an input), and the conversion of numbers to text.
- Model training and the module-level model loads are left out; a loaded model is an optional oracle.
- Concurrency and UI are left out: `Promise.all`, the retry sleeps, the navigation-blocking listeners, animations, JSX rendering and the other pages and components.
- Randomness is left out: the marker jitter in Home and the awareness tips.
- Characters are Dafny `char`s, not UTF-16 code units. Case mapping is ASCII only. JavaScript and Python white space are approximated by their ASCII and common Unicode members.
- Floating point is modelled by reals. `Math.round` is floor(x + 0.5), and tie-breaking on negative values is not modelled. `round(x, 2)` in the score engine and the transparency model is left out. The 0.2 zoom step is exact.
- Dates (`toLocaleDateString`, `created_at`) and the logging calls are not modelled.
- ContentScript.BackendSummary: the backend reply is kept as its six fields url, summary, classification, score, trackers and cookies; content.js stores the whole reply object (features, risk and the nested summary included), and the fields the model drops are passed through unchanged.
- ContentScript.RunContentScript: the outer `catch` that stores `e.message` is not modelled; in the model no step of the pass throws, because backend tracker items always carry a string name.
- ScanRoute.ScanSpec: pydantic's lax coercion is not modelled. A summary, classification or tracker field of the wrong type is treated as a validation failure, which goes to the fixed failure result.
- ModelService.PredictTransparency: the policy text is always a string; the exception a non-string would raise in `lower()` is not modelled.
- AiService.ChunkTextSpec: does not state the number of chunks (⌈|text| / n⌉); that needs nonlinear arithmetic the solver handles poorly. The length facts it does state determine the split.
- AiService.CleanJsonString: a non-string argument (returned unchanged by the source) cannot reach it, because every caller passes a string.
- AnalyzePage.Partials: the content of each partial result is stated step by step by `PartialsStep`, not as one quantified formula.
- AnalyzePage.AnalyzeView.DoScan: the reset of the full-summary flag (`setShowFullSummary(false)`) is not part of the page state modelled; the flag appears only as the parameter of `TruncatedSummary`.
- Popup.ScoreClass: a string, array or object score is treated as NaN, so it gets "high"; JavaScript converts it to a number for the comparison (`"30" <= 25` compares 30), which the model does not do.
- ComparePage.ToNumber: JavaScript's conversion of strings, arrays and objects to numbers is approximated by NaN.
- HomePage.ScoreOf: a string score is concatenated by JavaScript's `+` and `true` adds 1 (Home.jsx:34); the model counts every non-numeric score as 0.
- HomePage.CookieCount: a truthy `cookies` value that is neither a list nor a string counts 0 here; JavaScript would add `undefined` and give NaN.
- HomePage.StatsOf: a `null` history entry makes the statistics unavailable, as the thrown error does; rendering errors of other entries are not modelled.
