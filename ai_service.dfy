/**
 * The backend's AI summariser: code-fence stripping, fixed-size chunking,
 * the Gemini call with its prompt cut and text collection, the chunked
 * path for long policies, and `ai_summarize` with its short-text guard and
 * its fallbacks when the model's output is not JSON.
 *
 * The Gemini model, the Hugging Face summariser and `json.loads` are
 * parameters: `gemini(prompt, maxTokens)` returns a `GeminiReply`,
 * `hf(text)` the summary text or `None` (an empty result or an exception),
 * `loads(text)` the parsed value or `None` (a decode error).
 */
module AiService {
  import opened Base
  import opened Json

  const MaxPromptLength: nat := 12000
  const ChunkLength: nat := 4000
  const MinPolicyLength: nat := 80
  const ShortChunk: nat := 100
  const NoOutput: string := "Gemini produced no output."
  const Fence: string := "```"

  /** Python `a or b` on strings. */
  function Or(a: string, b: string): string {
    if a != "" then a else b
  }

  // ------------------------------------------------------------------
  // clean_json_string

  /** The characters Python's `str.splitlines` breaks at. */
  predicate IsLineBreak(c: char) {
    c == '\n' || c == '\r' || c == '\U{000B}' || c == '\U{000C}' || ('\U{001C}' <= c <= '\U{001E}')
    || c == '\U{0085}' || c == '\U{2028}' || c == '\U{2029}'
  }

  predicate NoLineBreak(s: string) {
    forall i :: 0 <= i < |s| ==> !IsLineBreak(s[i])
  }

  function FirstBreak(s: string, from: nat): (r: Option<nat>)
    decreases |s| - from
    ensures r.Some? ==> from <= r.value < |s| && IsLineBreak(s[r.value])
    ensures r.Some? ==> forall j :: from <= j < r.value ==> !IsLineBreak(s[j])
    ensures r.None? ==> forall j :: from <= j < |s| ==> !IsLineBreak(s[j])
  {
    if from >= |s| then None
    else if IsLineBreak(s[from]) then Some(from)
    else FirstBreak(s, from + 1)
  }

  /** Python `str.splitlines()`: "\r\n" is one break, and a final break opens no empty line. */
  function SplitLines(s: string): seq<string>
    decreases |s|
  {
    if s == "" then []
    else
      match FirstBreak(s, 0)
      case None => [s]
      case Some(k) =>
        var w := if s[k] == '\r' && k + 1 < |s| && s[k + 1] == '\n' then 2 else 1;
        [s[..k]] + SplitLines(s[k + w..])
  }

  /** A fenced text with more than two lines becomes its inner lines, stripped; anything else is stripped. */
  function CleanJsonString(s: string): string {
    if StartsWith(s, Fence) && EndsWith(s, Fence) && |SplitLines(s)| > 2 then
      var lines := SplitLines(s);
      PyStrip(Join(lines[1..|lines| - 1], "\n"))
    else PyStrip(s)
  }

  lemma {:induction false} FirstBreakAt(s: string, from: nat, k: nat)
    requires from <= k < |s| && IsLineBreak(s[k])
    requires forall j :: from <= j < k ==> !IsLineBreak(s[j])
    decreases k - from
    ensures FirstBreak(s, from) == Some(k)
  {
    if from < k {
      FirstBreakAt(s, from + 1, k);
    }
  }

  lemma SplitLinesBreak(x: string, y: string)
    requires NoLineBreak(x)
    ensures SplitLines(x + "\n" + y) == [x] + SplitLines(y)
  {
    var s := x + "\n" + y;
    assert s[|x|] == '\n';
    assert forall j :: 0 <= j < |x| ==> s[j] == x[j];
    FirstBreakAt(s, 0, |x|);
    assert s[..|x|] == x;
    assert s[|x| + 1..] == y;
  }

  lemma SplitLinesSingle(x: string)
    requires NoLineBreak(x) && x != ""
    ensures SplitLines(x) == [x]
  {
  }

  lemma JoinLinesTail(body: seq<string>, tail: string)
    requires |body| > 1
    ensures Join(body, "\n") + "\n" + tail == body[0] + "\n" + (Join(body[1..], "\n") + "\n" + tail)
  {
    AppendAssoc4(body[0] + "\n", Join(body[1..], "\n"), "\n", tail);
  }

  lemma SplitLinesJoinStep(body: seq<string>, tail: string)
    requires |body| > 1 && NoLineBreak(body[0])
    requires SplitLines(Join(body[1..], "\n") + "\n" + tail) == body[1..] + SplitLines(tail)
    ensures SplitLines(Join(body, "\n") + "\n" + tail) == body + SplitLines(tail)
  {
    var y := Join(body[1..], "\n") + "\n" + tail;
    var l := SplitLines(tail);
    calc {
      SplitLines(Join(body, "\n") + "\n" + tail);
      { JoinLinesTail(body, tail); }
      SplitLines(body[0] + "\n" + y);
      { SplitLinesBreak(body[0], y); }
      [body[0]] + SplitLines(y);
      [body[0]] + (body[1..] + l);
      { AppendAssoc([body[0]], body[1..], l); }
      [body[0]] + body[1..] + l;
      { assert [body[0]] + body[1..] == body; }
      body + l;
    }
  }

  /** Lines without breaks, joined with "\n" and followed by a break, split back into themselves. */
  lemma {:induction false} SplitLinesJoin(body: seq<string>, tail: string)
    requires |body| > 0
    requires forall k :: 0 <= k < |body| ==> NoLineBreak(body[k])
    decreases |body|
    ensures SplitLines(Join(body, "\n") + "\n" + tail) == body + SplitLines(tail)
  {
    if |body| == 1 {
      SplitLinesBreak(body[0], tail);
      assert body == [body[0]];
    } else {
      SplitLinesJoin(body[1..], tail);
      SplitLinesJoinStep(body, tail);
    }
  }

  /** A fenced text splits into its header line, its body lines and the closing fence. */
  lemma FencedLines(header: string, body: seq<string>)
    requires NoLineBreak(header)
    requires |body| > 0
    requires forall k :: 0 <= k < |body| ==> NoLineBreak(body[k])
    ensures SplitLines(Fence + header + "\n" + Join(body, "\n") + "\n" + Fence) == [Fence + header] + body + [Fence]
  {
    var a := Fence + header;
    var j := Join(body, "\n");
    NoLineBreakAppend(Fence, header);
    AppendAssoc4(a + "\n", j, "\n", Fence);
    SplitLinesBreak(a, j + "\n" + Fence);
    SplitLinesJoin(body, Fence);
    SplitLinesSingle(Fence);
  }

  lemma NoLineBreakAppend(x: string, y: string)
    requires NoLineBreak(x) && NoLineBreak(y)
    ensures NoLineBreak(x + y)
  {
    forall i | 0 <= i < |x + y| ensures !IsLineBreak((x + y)[i]) {
      if i >= |x| { assert (x + y)[i] == y[i - |x|]; }
    }
  }

  lemma FencedEnds(header: string, body: string)
    ensures var s := Fence + header + "\n" + body + "\n" + Fence;
      StartsWith(s, Fence) && EndsWith(s, Fence)
  {
    var s := Fence + header + "\n" + body + "\n" + Fence;
    assert s[..3] == Fence;
    assert s[|s| - 3..] == Fence;
  }

  /**
   * The fence round trip: body lines in a fence, with a one-line header
   * such as "json", come back joined by "\n" and stripped.
   */
  lemma CleanFenced(header: string, body: seq<string>)
    requires NoLineBreak(header)
    requires forall k :: 0 <= k < |body| ==> NoLineBreak(body[k])
    ensures CleanJsonString(Fence + header + "\n" + Join(body, "\n") + "\n" + Fence) == PyStrip(Join(body, "\n"))
  {
    var lines' := if |body| == 0 then [""] else body;
    assert Join(lines', "\n") == Join(body, "\n");
    var s := Fence + header + "\n" + Join(body, "\n") + "\n" + Fence;
    FencedLines(header, lines');
    FencedEnds(header, Join(body, "\n"));
    var lines := SplitLines(s);
    assert lines[1..|lines| - 1] == lines';
  }

  /** A fence on a single line has at most two lines, so it is only stripped. */
  lemma CleanFencedOneLine(x: string)
    requires NoLineBreak(x)
    ensures CleanJsonString(Fence + x + Fence) == PyStrip(Fence + x + Fence)
  {
    NoLineBreakAppend(Fence, x);
    NoLineBreakAppend(Fence + x, Fence);
    SplitLinesSingle(Fence + x + Fence);
  }

  /** Text that is not fenced is only stripped. */
  lemma CleanUnfenced(s: string)
    requires !StartsWith(s, Fence) || !EndsWith(s, Fence)
    ensures CleanJsonString(s) == PyStrip(s)
  {
  }

  // ------------------------------------------------------------------
  // chunk_text

  /** `[text[i:i + n] for i in range(0, len(text), n)]`; a step of 0 is an error in Python. */
  function ChunkText(text: string, n: nat): (chunks: seq<string>)
    requires n >= 1
    decreases |text|
  {
    if |text| == 0 then []
    else if |text| <= n then [text]
    else [text[..n]] + ChunkText(text[n..], n)
  }


  /**
   * Concatenating the chunks gives the text back; every chunk is non-empty
   * and at most `n` long, and all but the last are exactly `n` long.
   */
  lemma {:induction false} ChunkTextSpec(text: string, n: nat)
    requires n >= 1
    decreases |text|
    ensures var cs := ChunkText(text, n);
      && Concat(cs) == text
      && (text == "" <==> cs == [])
      && (forall i :: 0 <= i < |cs| ==> 0 < |cs[i]| <= n)
      && (forall i :: 0 <= i < |cs| - 1 ==> |cs[i]| == n)
  {
    var cs := ChunkText(text, n);
    if |text| > n {
      var rest := ChunkText(text[n..], n);
      ChunkTextSpec(text[n..], n);
      assert cs == [text[..n]] + rest;
      assert cs[1..] == rest;
      ConcatCons(text[..n], rest);
      assert text == text[..n] + text[n..];
      assert forall i :: 1 <= i < |cs| ==> cs[i] == rest[i - 1];
    }
  }

  // ------------------------------------------------------------------
  // _call_gemini

  datatype Part = Part(text: Option<string>)
  /** A candidate's content parts, `None` when it has no content or no `parts`. */
  datatype Candidate = Candidate(parts: Option<seq<Part>>)
  datatype GeminiReply = GeminiFailed(error: string) | GeminiOk(candidates: seq<Candidate>)

  /** A part contributes its stripped text and a space when that text is not blank. */
  function PartText(p: Part): string {
    if p.text.Some? && PyStrip(p.text.value) != "" then PyStrip(p.text.value) + " " else ""
  }

  function PartsText(ps: seq<Part>): string {
    if |ps| == 0 then "" else PartsText(ps[..|ps| - 1]) + PartText(ps[|ps| - 1])
  }

  function CandidateText(c: Candidate): string {
    if c.parts.Some? then PartsText(c.parts.value) else ""
  }

  function CandidatesText(cs: seq<Candidate>): string {
    if |cs| == 0 then "" else CandidatesText(cs[..|cs| - 1]) + CandidateText(cs[|cs| - 1])
  }

  predicate HasText(p: Part) {
    p.text.Some? && PyStrip(p.text.value) != ""
  }

  lemma PartTextEmpty(p: Part)
    ensures PartText(p) == "" <==> !HasText(p)
  {
    if HasText(p) {
      assert |PartText(p)| > 0;
    }
  }

  /** Parts with no non-blank text contribute nothing. */
  lemma {:induction false} PartsTextBlank(ps: seq<Part>)
    requires forall i :: 0 <= i < |ps| ==> !HasText(ps[i])
    ensures PartsText(ps) == ""
  {
    if |ps| > 0 {
      var p := ps[..|ps| - 1];
      assert forall i :: 0 <= i < |p| ==> p[i] == ps[i];
      PartsTextBlank(p);
      PartTextEmpty(ps[|ps| - 1]);
    }
  }

  /** One part with non-blank text makes the collected text non-empty. */
  lemma {:induction false} PartsTextFilled(ps: seq<Part>, k: nat)
    requires k < |ps| && HasText(ps[k])
    ensures |PartsText(ps)| > 0
  {
    var p := ps[..|ps| - 1];
    if k < |p| {
      assert p[k] == ps[k];
      PartsTextFilled(p, k);
    } else {
      PartTextEmpty(ps[k]);
    }
  }

  lemma PartsTextEmpty(ps: seq<Part>)
    ensures PartsText(ps) == "" <==> forall i :: 0 <= i < |ps| ==> !HasText(ps[i])
  {
    if forall i :: 0 <= i < |ps| ==> !HasText(ps[i]) {
      PartsTextBlank(ps);
    } else {
      var k :| 0 <= k < |ps| && HasText(ps[k]);
      PartsTextFilled(ps, k);
    }
  }

  predicate Blank(c: Candidate) {
    c.parts.Some? ==> forall j :: 0 <= j < |c.parts.value| ==> !HasText(c.parts.value[j])
  }

  lemma CandidateTextEmpty(c: Candidate)
    ensures CandidateText(c) == "" <==> Blank(c)
  {
    if c.parts.Some? {
      PartsTextEmpty(c.parts.value);
    }
  }

  lemma {:induction false} CandidatesTextBlank(cs: seq<Candidate>)
    requires forall i :: 0 <= i < |cs| ==> Blank(cs[i])
    ensures CandidatesText(cs) == ""
  {
    if |cs| > 0 {
      var p := cs[..|cs| - 1];
      assert forall i :: 0 <= i < |p| ==> p[i] == cs[i];
      CandidatesTextBlank(p);
      CandidateTextEmpty(cs[|cs| - 1]);
    }
  }

  lemma {:induction false} CandidatesTextFilled(cs: seq<Candidate>, k: nat)
    requires k < |cs| && !Blank(cs[k])
    ensures |CandidatesText(cs)| > 0
  {
    var p := cs[..|cs| - 1];
    if k < |p| {
      assert p[k] == cs[k];
      CandidatesTextFilled(p, k);
    } else {
      CandidateTextEmpty(cs[k]);
    }
  }

  /** The collected text is empty exactly when no part of any candidate has non-blank text. */
  lemma CandidatesTextEmpty(cs: seq<Candidate>)
    ensures CandidatesText(cs) == "" <==> forall i :: 0 <= i < |cs| ==> Blank(cs[i])
  {
    if forall i :: 0 <= i < |cs| ==> Blank(cs[i]) {
      CandidatesTextBlank(cs);
    } else {
      var k :| 0 <= k < |cs| && !Blank(cs[k]);
      CandidatesTextFilled(cs, k);
    }
  }

  /** The prompt actually sent: its first 12000 characters. */
  function SentPrompt(prompt: string): (r: string)
    ensures |r| <= MaxPromptLength && StartsWith(prompt, r)
    ensures |prompt| <= MaxPromptLength ==> r == prompt
  {
    prompt[..Min(|prompt|, MaxPromptLength)]
  }

  /** What `_call_gemini` returns. */
  function GeminiText(prompt: string, maxTokens: nat, fallback: string, gemini: (string, nat) -> GeminiReply): string {
    if prompt == "" then Or(fallback, NoOutput)
    else
      match gemini(SentPrompt(prompt), maxTokens)
      case GeminiFailed(e) => Or(fallback, "Gemini error: " + e)
      case GeminiOk(cs) => Or(Or(CleanJsonString(CandidatesText(cs)), fallback), NoOutput)
  }

  /**
   * The call never returns an empty string; an empty prompt returns the
   * fallback or the fixed message without calling the model; an error
   * returns the fallback when there is one.
   */
  lemma GeminiTextSpec(prompt: string, maxTokens: nat, fallback: string, gemini: (string, nat) -> GeminiReply)
    ensures GeminiText(prompt, maxTokens, fallback, gemini) != ""
    ensures prompt == "" ==> GeminiText(prompt, maxTokens, fallback, gemini) == (if fallback != "" then fallback else NoOutput)
    ensures prompt != "" && gemini(SentPrompt(prompt), maxTokens).GeminiFailed? && fallback != "" ==>
      GeminiText(prompt, maxTokens, fallback, gemini) == fallback
  {
  }

  /** The inner loop over one candidate's parts. */
  method CollectParts(ps: seq<Part>, textOutput0: string) returns (textOutput: string)
    ensures textOutput == textOutput0 + PartsText(ps)
  {
    textOutput := textOutput0;
    var j := 0;
    while j < |ps|
      invariant 0 <= j <= |ps|
      invariant textOutput == textOutput0 + PartsText(ps[..j])
    {
      SliceSnoc(ps, j);
      var p := ps[j];
      if p.text.Some? && PyStrip(p.text.value) != "" {
        AppendAssoc(textOutput0, PartsText(ps[..j]), PyStrip(p.text.value) + " ");
        textOutput := textOutput + (PyStrip(p.text.value) + " ");
      }
      j := j + 1;
    }
    PrefixAll(ps);
  }

  /** The nested loops over candidates and their parts. */
  method CollectText(cs: seq<Candidate>) returns (textOutput: string)
    ensures textOutput == CandidatesText(cs)
  {
    textOutput := "";
    var i := 0;
    while i < |cs|
      invariant 0 <= i <= |cs|
      invariant textOutput == CandidatesText(cs[..i])
    {
      SliceSnoc(cs, i);
      if cs[i].parts.Some? {
        textOutput := CollectParts(cs[i].parts.value, textOutput);
      }
      i := i + 1;
    }
    PrefixAll(cs);
  }

  /** `_call_gemini`. */
  method CallGemini(prompt: string, maxTokens: nat, fallback: string, gemini: (string, nat) -> GeminiReply) returns (r: string)
    ensures r == GeminiText(prompt, maxTokens, fallback, gemini)
  {
    if prompt == "" {
      return Or(fallback, NoOutput);
    }
    var promptText := prompt;
    if |promptText| > MaxPromptLength {
      promptText := promptText[..MaxPromptLength];
    }
    var response := gemini(promptText, maxTokens);
    match response {
      case GeminiFailed(e) =>
        r := Or(fallback, "Gemini error: " + e);
      case GeminiOk(cs) =>
        var textOutput := CollectText(cs);
        r := Or(Or(CleanJsonString(textOutput), fallback), NoOutput);
    }
  }

  // ------------------------------------------------------------------
  // summarize_large_policy_with_gemini

  /** `s[:500] + "..."`: the fallback text used when a service fails. */
  function Preview(s: string): (r: string)
    ensures |r| == Min(|s|, 500) + 3
    ensures StartsWith(s, r[..|r| - 3]) && EndsWith(r, "...")
  {
    var r := s[..Min(|s|, 500)] + "...";
    assert r[..|r| - 3] == s[..Min(|s|, 500)];
    assert r[|r| - 3..] == "...";
    r
  }

  /** The summariser's text, or the first 500 characters and "..." when it fails or returns nothing. */
  function HfSummary(text: string, hf: string -> Option<string>): string {
    match hf(text)
    case Some(t) => t
    case None => Preview(text)
  }

  /** The refinement prompt for part `i + 1` of `n`. */
  function ChunkPrompt(prompt: string, i: nat, n: nat, h: string): string {
    prompt + "\n\nPolicy Summary (Part " + NatToString(i + 1) + "/" + NatToString(n) + "):\n" + h
  }

  /** One chunk's refined summary: the summariser's text for a short chunk, else the model's refinement of it. */
  function Refined(prompt: string, i: nat, n: nat, chunk: string, maxTokens: nat,
                   hf: string -> Option<string>, gemini: (string, nat) -> GeminiReply): string
  {
    var h := HfSummary(chunk, hf);
    if |PyStrip(chunk)| < ShortChunk then h
    else
      GeminiText(ChunkPrompt(prompt, i, n, h), Max(maxTokens, |h| / 2), h, gemini)
  }

  function ChunkSummaries(prompt: string, chunks: seq<string>, maxTokens: nat,
                          hf: string -> Option<string>, gemini: (string, nat) -> GeminiReply): (ss: seq<string>)
    ensures |ss| == |chunks|
    ensures forall i :: 0 <= i < |chunks| ==> ss[i] == PyStrip(Refined(prompt, i, |chunks|, chunks[i], maxTokens, hf, gemini))
  {
    seq(|chunks|, i requires 0 <= i < |chunks| => PyStrip(Refined(prompt, i, |chunks|, chunks[i], maxTokens, hf, gemini)))
  }

  const CombinePrompt: string :=
    "Combine the following summaries into one unified summary. "
    + "Identify tone (friendly, neutral, legalistic) and highlight potential risks. "
    + "Return strictly as JSON with keys: summary, bullets, tone, risks.\n\n"

  /** The final call over all chunk summaries joined by spaces. */
  function Combined(summaries: seq<string>, gemini: (string, nat) -> GeminiReply): string {
    var text := Join(summaries, " ");
    GeminiText(CombinePrompt + text, Max(2000, |text| / 2), Preview(text), gemini)
  }

  function LargePolicyText(prompt: string, text: string, maxTokens: nat,
                           hf: string -> Option<string>, gemini: (string, nat) -> GeminiReply): string {
    Combined(ChunkSummaries(prompt, ChunkText(text, ChunkLength), maxTokens, hf, gemini), gemini)
  }

  /**
   * A short chunk keeps the summariser's text. A long chunk is refined by
   * the model and never comes back empty; when the model call fails it
   * falls back to the summariser's text, or to the chunk's preview when
   * the summariser fails too.
   */
  lemma RefinedSpec(prompt: string, i: nat, n: nat, chunk: string, maxTokens: nat,
                    hf: string -> Option<string>, gemini: (string, nat) -> GeminiReply)
    ensures var r := Refined(prompt, i, n, chunk, maxTokens, hf, gemini);
      var h := HfSummary(chunk, hf);
      && (|PyStrip(chunk)| < ShortChunk ==> r == h)
      && (|PyStrip(chunk)| >= ShortChunk ==> r != "")
      && (|PyStrip(chunk)| >= ShortChunk && gemini(SentPrompt(ChunkPrompt(prompt, i, n, h)), Max(maxTokens, |h| / 2)).GeminiFailed? ==>
            r == (if h != "" then h else "Gemini error: " + gemini(SentPrompt(ChunkPrompt(prompt, i, n, h)), Max(maxTokens, |h| / 2)).error))
      && (hf(chunk).None? ==> h == Preview(chunk))
  {
    var h := HfSummary(chunk, hf);
    var p := ChunkPrompt(prompt, i, n, h);
    assert p != "";
    GeminiTextSpec(p, Max(maxTokens, |h| / 2), h, gemini);
  }

  /**
   * With both the summariser and the model failing on every call, each
   * chunk's summary is its stripped preview and the result is the preview
   * of those summaries joined by spaces.
   */
  lemma LargePolicyOffline(prompt: string, text: string, maxTokens: nat,
                           hf: string -> Option<string>, gemini: (string, nat) -> GeminiReply)
    requires forall c :: hf(c).None?
    requires forall p, t :: gemini(p, t).GeminiFailed?
    ensures var chunks := ChunkText(text, ChunkLength);
      var ss := ChunkSummaries(prompt, chunks, maxTokens, hf, gemini);
      && (forall k :: 0 <= k < |ss| ==> ss[k] == PyStrip(Preview(chunks[k])))
      && LargePolicyText(prompt, text, maxTokens, hf, gemini) == Preview(Join(ss, " "))
  {
    var chunks := ChunkText(text, ChunkLength);
    var ss := ChunkSummaries(prompt, chunks, maxTokens, hf, gemini);
    forall k | 0 <= k < |ss| ensures ss[k] == PyStrip(Preview(chunks[k])) {
      RefinedOffline(prompt, k, |chunks|, chunks[k], maxTokens, hf, gemini);
    }
    var joined := Join(ss, " ");
    var fallback := Preview(joined);
    assert fallback != "";
    assert gemini(SentPrompt(CombinePrompt + joined), Max(2000, |joined| / 2)).GeminiFailed?;
    GeminiTextSpec(CombinePrompt + joined, Max(2000, |joined| / 2), fallback, gemini);
  }

  lemma RefinedOffline(prompt: string, i: nat, n: nat, chunk: string, maxTokens: nat,
                       hf: string -> Option<string>, gemini: (string, nat) -> GeminiReply)
    requires hf(chunk).None?
    requires forall p, t :: gemini(p, t).GeminiFailed?
    ensures Refined(prompt, i, n, chunk, maxTokens, hf, gemini) == Preview(chunk)
  {
    var h := HfSummary(chunk, hf);
    assert h == Preview(chunk) && h != "";
    assert gemini(SentPrompt(ChunkPrompt(prompt, i, n, h)), Max(maxTokens, |h| / 2)).GeminiFailed?;
    RefinedSpec(prompt, i, n, chunk, maxTokens, hf, gemini);
  }

  /** The chunked path never returns an empty text. */
  lemma LargePolicyNonEmpty(prompt: string, text: string, maxTokens: nat,
                            hf: string -> Option<string>, gemini: (string, nat) -> GeminiReply)
    ensures LargePolicyText(prompt, text, maxTokens, hf, gemini) != ""
  {
    var joined := Join(ChunkSummaries(prompt, ChunkText(text, ChunkLength), maxTokens, hf, gemini), " ");
    GeminiTextSpec(CombinePrompt + joined, Max(2000, |joined| / 2), Preview(joined), gemini);
  }

  /** One pass of the loop over the chunks. */
  method RefineChunk(prompt: string, i: nat, n: nat, chunk: string, maxTokens: nat,
                     hf: string -> Option<string>, gemini: (string, nat) -> GeminiReply) returns (r: string)
    ensures r == Refined(prompt, i, n, chunk, maxTokens, hf, gemini)
  {
    var hfText := HfSummary(chunk, hf);
    if |PyStrip(chunk)| < ShortChunk {
      r := hfText;
    } else {
      r := CallGemini(ChunkPrompt(prompt, i, n, hfText), Max(maxTokens, |hfText| / 2), hfText, gemini);
    }
  }

  /** The loop over the chunks, then the combining call. */
  method SummarizeLargePolicy(prompt: string, text: string, maxTokens: nat,
                              hf: string -> Option<string>, gemini: (string, nat) -> GeminiReply) returns (r: string)
    ensures r == LargePolicyText(prompt, text, maxTokens, hf, gemini)
  {
    var chunks := ChunkText(text, ChunkLength);
    ghost var all := ChunkSummaries(prompt, chunks, maxTokens, hf, gemini);
    var summaries: seq<string> := [];
    var i := 0;
    while i < |chunks|
      invariant 0 <= i <= |chunks|
      invariant summaries == all[..i]
    {
      var refined := RefineChunk(prompt, i, |chunks|, chunks[i], maxTokens, hf, gemini);
      SliceSnoc(all, i);
      summaries := summaries + [PyStrip(refined)];
      i := i + 1;
    }
    PrefixAll(all);
    var combinedText := Join(summaries, " ");
    r := CallGemini(CombinePrompt + combinedText, Max(2000, |combinedText| / 2),
                    Preview(combinedText), gemini);
  }

  // ------------------------------------------------------------------
  // Bullet fallbacks

  /** `[s.strip() for s in pieces if s.strip()]`. */
  function StrippedNonEmpty(pieces: seq<string>): (r: seq<string>)
    ensures |r| <= |pieces|
    ensures forall b :: b in r ==> b != "" && exists p :: p in pieces && b == PyStrip(p)
  {
    if |pieces| == 0 then []
    else (if PyStrip(pieces[0]) != "" then [PyStrip(pieces[0])] else []) + StrippedNonEmpty(pieces[1..])
  }

  /** `[s.strip() for s in text.split(". ")[:5] if s.strip()]`. */
  function SentenceBullets(text: string): (r: seq<string>)
    ensures |r| <= 5
    ensures forall b :: b in r ==> b != "" && b == PyStrip(b)
  {
    var pieces := Split(text, ". ");
    var r := StrippedNonEmpty(pieces[..Min(|pieces|, 5)]);
    forall b | b in r ensures b == PyStrip(b) {
      var p :| p in pieces[..Min(|pieces|, 5)] && b == PyStrip(p);
      TrimTwice(p, IsPySpace);
    }
    r
  }

  lemma TrimTwice(s: string, space: char -> bool)
    ensures Trim(Trim(s, space), space) == Trim(s, space)
  {
    TrimTrimmed(Trim(s, space), space);
  }

  function IsQuote(c: char): bool { c == '"' }

  /** The text after the `[` at `b` up to the first following `]`; `None` when no `]` follows. */
  function BracketGroup(s: string, b: nat): (r: Option<string>)
    ensures r.Some? ==> !Contains(r.value, "]")
  {
    match IndexFrom(s, "]", b + 1)
    case None => None
    case Some(e) =>
      BeforeFirst(s, "]", b + 1);
      Some(s[b + 1..e])
  }

  /** The group of `"bullets"\s*:\s*\[([^\]]*)\]` when the match starts at `i`: it never contains "]". */
  function BulletsAt(s: string, i: nat): (r: Option<string>)
    ensures r.Some? ==> !Contains(r.value, "]")
  {
    if !OccursAt(s, "\"bullets\"", i) then None
    else
      var a := SkipSpaces(s, i + 9, IsPySpace);
      if a < |s| && s[a] == ':' then
        var b := SkipSpaces(s, a + 1, IsPySpace);
        if b < |s| && s[b] == '[' then BracketGroup(s, b) else None
      else None
  }

  /** `re.search`: the leftmost position where the whole pattern matches. */
  function SearchBullets(s: string, from: nat): (r: Option<string>)
    decreases |s| - from
    ensures r.Some? ==> !Contains(r.value, "]")
  {
    if from > |s| then None
    else
      var m := BulletsAt(s, from);
      if m.Some? then m else SearchBullets(s, from + 1)
  }

  /** `[b.strip().strip('"') for b in raw.split(",") if b.strip()]`. */
  function RawBullets(pieces: seq<string>): (r: seq<string>)
    ensures |r| <= |pieces|
  {
    if |pieces| == 0 then []
    else (if PyStrip(pieces[0]) != "" then [Trim(PyStrip(pieces[0]), IsQuote)] else []) + RawBullets(pieces[1..])
  }

  // ------------------------------------------------------------------
  // ai_summarize

  datatype AiResult = AiResult(summary: Json, bullets: Json, tone: Json, risks: Json)

  function Strs(xs: seq<string>): (r: seq<Json>)
    ensures |r| == |xs| && forall i :: 0 <= i < |xs| ==> r[i] == JStr(xs[i])
  {
    seq(|xs|, i requires 0 <= i < |xs| => JStr(xs[i]))
  }

  const Insufficient: AiResult := AiResult(JStr("Insufficient policy text."), JArr([]), JStr("unknown"), JArr([]))

  /** Python `d.get(k, default)`: a present key gives its value, even `None`. */
  function Get(m: map<string, Json>, k: string, d: Json): Json {
    if k in m then m[k] else d
  }

  /** The result from the model's text after fence stripping, or `None` when building it raises. */
  function FromOutput(outText: string, loads: string -> Option<Json>): Option<AiResult> {
    match loads(outText)
    case None =>
      // decode error: the regular-expression bullets, else the sentence bullets
      var m := SearchBullets(outText, 0);
      var raw := if m.Some? then RawBullets(Split(m.value, ",")) else [];
      var bullets := if raw != [] then raw else SentenceBullets(outText);
      Some(AiResult(JStr(PyStrip(outText)), JArr(Strs(bullets)), JStr("unknown"), JArr([])))
    case Some(parsed) =>
      if !parsed.JObj? then None   // `parsed.get` raises on a non-dict
      else
        var fields := parsed.fields;
        var b := Get(fields, "bullets", JNull);
        var summary := Get(fields, "summary", JStr(""));
        if !PyTruthy(b) && !summary.JStr? then None   // `.split` raises on a non-string summary
        else
          var bullets := if PyTruthy(b) then b else JArr(Strs(SentenceBullets(summary.str)));
          Some(AiResult(Get(fields, "summary", JStr(outText)), bullets, Get(fields, "tone", JStr("unknown")), Get(fields, "risks", JArr([]))))
  }

  /** `ai_summarize`; `errorMessage` is `str(e)` of whatever the model call path raises. */
  function Summarize(prompt: string, text: string, maxTokens: nat, errorMessage: string,
                     hf: string -> Option<string>, gemini: (string, nat) -> GeminiReply,
                     loads: string -> Option<Json>): AiResult
  {
    if text == "" || |PyStrip(text)| < MinPolicyLength then Insufficient
    else
      var outText :=
        if |text| > MaxPromptLength then LargePolicyText(prompt, text, maxTokens, hf, gemini)
        else
          var h := HfSummary(text, hf);
          GeminiText(prompt + "\n\nPolicy Summary:\n" + h, maxTokens, h, gemini);
      match FromOutput(CleanJsonString(outText), loads)
      case Some(r) => r
      case None => AiResult(JStr("AI summarization unavailable: " + errorMessage), JArr([]), JStr("unknown"), JArr([]))
  }

  /** The top-level call: the guard, then the chunked or the single-call path. */
  method AiSummarize(prompt: string, text: string, maxTokens: nat, errorMessage: string,
                     hf: string -> Option<string>, gemini: (string, nat) -> GeminiReply,
                     loads: string -> Option<Json>) returns (r: AiResult)
    ensures r == Summarize(prompt, text, maxTokens, errorMessage, hf, gemini, loads)
  {
    if text == "" || |PyStrip(text)| < MinPolicyLength {
      return Insufficient;
    }
    var outText: string;
    if |text| > MaxPromptLength {
      outText := SummarizeLargePolicy(prompt, text, maxTokens, hf, gemini);
    } else {
      var hfText := HfSummary(text, hf);
      outText := CallGemini(prompt + "\n\nPolicy Summary:\n" + hfText, maxTokens, hfText, gemini);
    }
    outText := CleanJsonString(outText);
    var res := FromOutput(outText, loads);
    r := if res.Some? then res.value
         else AiResult(JStr("AI summarization unavailable: " + errorMessage), JArr([]), JStr("unknown"), JArr([]));
  }

  /**
   * Text that is empty or whose stripped form has fewer than 80
   * characters gives the fixed result. Otherwise text over 12000
   * characters takes the chunked path and shorter text one model call on
   * the summariser's text; the cleaned output decides the result, and a
   * result that cannot be built gives "AI summarization unavailable".
   * Output that parses as a dictionary gives its bullets when truthy, else
   * the sentence bullets of its summary, with summary, tone and risks
   * defaulting to the output, "unknown" and []; a parsed value that is not
   * a dictionary, or falsy bullets beside a non-string summary, cannot be
   * built. Output that does not parse gives tone "unknown", no risks, the
   * stripped output as summary and the sentence bullets when no bracketed
   * list is found.
   */
  lemma SummarizeSpec(prompt: string, text: string, maxTokens: nat, errorMessage: string,
                      hf: string -> Option<string>, gemini: (string, nat) -> GeminiReply,
                      loads: string -> Option<Json>)
    ensures text == "" || |PyStrip(text)| < MinPolicyLength ==>
      Summarize(prompt, text, maxTokens, errorMessage, hf, gemini, loads) == Insufficient
    ensures !(text == "" || |PyStrip(text)| < MinPolicyLength) ==>
      var h := HfSummary(text, hf);
      var raw := if |text| > MaxPromptLength then LargePolicyText(prompt, text, maxTokens, hf, gemini)
                 else GeminiText(prompt + "\n\nPolicy Summary:\n" + h, maxTokens, h, gemini);
      var out := CleanJsonString(raw);
      Summarize(prompt, text, maxTokens, errorMessage, hf, gemini, loads) ==
        if FromOutput(out, loads).Some? then FromOutput(out, loads).value
        else AiResult(JStr("AI summarization unavailable: " + errorMessage), JArr([]), JStr("unknown"), JArr([]))
    ensures forall out :: loads(out).Some? && !loads(out).value.JObj? ==> FromOutput(out, loads).None?
    ensures forall out :: loads(out).Some? && loads(out).value.JObj? ==>
      var f := loads(out).value.fields;
      var b := Get(f, "bullets", JNull);
      var summary := Get(f, "summary", JStr(""));
      && (!PyTruthy(b) && !summary.JStr? ==> FromOutput(out, loads).None?)
      && (PyTruthy(b) || summary.JStr? ==>
            FromOutput(out, loads) == Some(AiResult(
              Get(f, "summary", JStr(out)),
              if PyTruthy(b) then b else JArr(Strs(SentenceBullets(summary.str))),
              Get(f, "tone", JStr("unknown")),
              Get(f, "risks", JArr([])))))
    ensures forall out :: loads(out).None? ==>
      var r := FromOutput(out, loads).value;
      && r.tone == JStr("unknown") && r.risks == JArr([]) && r.summary == JStr(PyStrip(out))
      && (SearchBullets(out, 0).None? ==> r.bullets == JArr(Strs(SentenceBullets(out))))
  {
  }
}
