/**
 * The dashboard's Analyze page: the text cleaner applied to every summary
 * it shows, the display cut of long summaries, and `doScan`, which streams
 * the backend's reply into one string, republishes a partial result after
 * every chunk and picks the final result once the stream ends.
 *
 * The network reply is an input (`Response`), already decoded into text
 * chunks; `JSON.parse` is the parameter `parse`.
 */
module AnalyzePage {
  import opened Base
  import opened Json

  // ------------------------------------------------------------------
  // cleanRepetitiveText

  const Phrase: string := "Privacy & Terms"
  const PhraseOut: string := "Privacy & Terms "
  const MaxClean: nat := 1000

  /**
   * End of the match of `(Privacy & Terms\s*)+` that starts at `i`: each
   * copy of the phrase is followed by its white space, and the run goes on
   * while the next copy follows.
   */
  function RunEnd(s: string, i: nat): (j: nat)
    requires OccursAt(s, Phrase, i)
    decreases |s| - i
    ensures i + |Phrase| <= j <= |s|
    ensures j == |s| || (!IsJsSpace(s[j]) && !OccursAt(s, Phrase, j))
  {
    var k := SkipSpaces(s, i + |Phrase|, IsJsSpace);
    if OccursAt(s, Phrase, k) then RunEnd(s, k) else k
  }

  /** Position `m` lies in a copy of the phrase that fits inside `s[i..j]`. */
  predicate InCopy(s: string, i: nat, j: nat, m: nat) {
    exists p :: i <= p <= m && m < p + |Phrase| <= j && OccursAt(s, Phrase, p)
  }

  /** `s[i..j]` is made of copies of the phrase and white space only. */
  predicate RunCovered(s: string, i: nat, j: nat)
    requires j <= |s|
  {
    forall m :: i <= m < j ==> IsJsSpace(s[m]) || InCopy(s, i, j, m)
  }

  /**
   * The run `(Privacy & Terms\s*)+` matched from `i` consists of copies of
   * the phrase and white space; with the stop condition of `RunEnd` this
   * makes it the greedy match.
   */
  lemma {:induction false} RunEndCovers(s: string, i: nat)
    requires OccursAt(s, Phrase, i)
    decreases |s| - i
    ensures RunCovered(s, i, RunEnd(s, i))
  {
    var k := SkipSpaces(s, i + |Phrase|, IsJsSpace);
    var j := RunEnd(s, i);
    if OccursAt(s, Phrase, k) {
      RunEndCovers(s, k);
    }
    forall m | i <= m < j ensures IsJsSpace(s[m]) || InCopy(s, i, j, m) {
      if m < i + |Phrase| {
        assert OccursAt(s, Phrase, i);
      } else if m >= k && !IsJsSpace(s[m]) {
        assert InCopy(s, k, j, m);
        var p :| k <= p <= m && m < p + |Phrase| <= j && OccursAt(s, Phrase, p);
        assert i <= p;
      }
    }
  }

  /** `text.replace(pattern, "Privacy & Terms ")` with a non-global pattern: the leftmost run only. */
  function Collapse(s: string): string {
    match IndexOf(s, Phrase)
    case None => s
    case Some(i) => s[..i] + PhraseOut + s[RunEnd(s, i)..]
  }

  /** `cleanRepetitiveText`: collapse, `trim`, then `slice(0, 1000)`. */
  function Clean(s: string): string {
    var t := JsTrim(Collapse(s));
    t[..Min(|t|, MaxClean)]
  }

  /**
   * The cleaned text has at most 1000 characters and no leading white
   * space (trimming happens before the cut); it is a prefix of the
   * trimmed, collapsed text, and all of it when that has at most 1000.
   */
  lemma CleanSpec(s: string)
    ensures var r, t := Clean(s), JsTrim(Collapse(s));
      && |r| <= MaxClean
      && (r == [] || !IsJsSpace(r[0]))
      && |r| <= |t| && r == t[..|r|]
      && (|t| <= MaxClean ==> r == t)
  {
  }

  /** Text without the phrase becomes its trimmed form cut to 1000 characters. */
  lemma CleanWithoutPhrase(s: string)
    requires !Contains(s, Phrase)
    ensures Clean(s) == JsTrim(s)[..Min(|JsTrim(s)|, MaxClean)]
  {
    assert IndexOf(s, Phrase).None?;
  }

  /**
   * With the phrase present, only the leftmost run is replaced: the text
   * before the first copy is kept, a single "Privacy & Terms " stands for
   * the run, and what follows it neither starts with white space nor with
   * another copy; the text after the run is kept.
   */
  lemma CollapseLeftmostRun(s: string)
    requires Contains(s, Phrase)
    ensures var i := IndexOf(s, Phrase).value;
      var j := RunEnd(s, i);
      var c := Collapse(s);
      && (forall k :: 0 <= k < i ==> !OccursAt(s, Phrase, k))
      && StartsWith(s[i..j], Phrase)
      && c == s[..i] + PhraseOut + s[j..]
      && RunCovered(s, i, j)
      && OccursAt(c, Phrase, i)
      && !OccursAt(c, Phrase, i + |PhraseOut|)
      && (i + |PhraseOut| == |c| || !IsJsSpace(c[i + |PhraseOut|]))
  {
    var i := IndexOf(s, Phrase).value;
    var j := RunEnd(s, i);
    assert Collapse(s) == s[..i] + PhraseOut + s[j..];
    Spliced(s[..i], s, j);
    RunEndCovers(s, i);
  }

  /**
   * Writing the replacement between `a` and the rest of `t` from `j`, where
   * `j` ends a run, leaves the phrase at the seam and no space or second copy after it.
   */
  lemma Spliced(a: string, t: string, j: nat)
    requires j <= |t| && (j == |t| || (!IsJsSpace(t[j]) && !OccursAt(t, Phrase, j)))
    ensures var c, n := a + PhraseOut + t[j..], |a| + |PhraseOut|;
      && OccursAt(c, Phrase, |a|)
      && !OccursAt(c, Phrase, n)
      && (n == |c| || !IsJsSpace(c[n]))
  {
    var c, n := a + PhraseOut + t[j..], |a| + |PhraseOut|;
    assert c[|a|..|a| + |Phrase|] == Phrase;
    assert c[n..] == t[j..];
    OccursShift(c, n, t, j, Phrase);
    if n < |c| {
      assert c[n] == t[j];
    }
  }

  /**
   * The cleaner is not idempotent: a cut that ends in white space is
   * trimmed further by a second pass.
   */
  lemma CleanNotIdempotent()
    ensures exists s :: Clean(Clean(s)) != Clean(s)
  {
    var s := seq(MaxClean + 1, i requires 0 <= i <= MaxClean => if i == MaxClean - 1 then ' ' else 'a');
    NoOccurrence(s, Phrase);
    assert TrimStart(s, IsJsSpace) == s;
    assert TrimEnd(s, IsJsSpace) == s;
    var c := Clean(s);
    CleanSpec(s);
    assert c == s[..MaxClean];
    NoOccurrence(c, Phrase);
    assert IsJsSpace(c[|c| - 1]);
    assert |Clean(c)| < |c|;
  }

  // ------------------------------------------------------------------
  // truncatedSummary

  const MaxShown: nat := 500

  /** Summaries longer than 500 characters are cut to 500 and marked with "..." unless shown in full. */
  function TruncatedSummary(summary: string, showFull: bool): (r: string)
    ensures showFull || |summary| <= MaxShown ==> r == summary
    ensures !showFull && |summary| > MaxShown ==> r == summary[..MaxShown] + "..."
    ensures !showFull ==> |r| <= MaxShown + 3
  {
    if |summary| > MaxShown && !showFull then summary[..MaxShown] + "..." else summary
  }

  // ------------------------------------------------------------------
  // Results

  /** The page's `result` state; fields other than `summary` hold whatever the parsed reply held. */
  datatype ScanResult = ScanResult(
    score: Json, summary: string, bullets: Json, highlights: Json,
    policy: Json, tone: Json, risks: Json)

  /** The result `doScan` starts from: everything empty, tone "unknown". */
  const Initial: ScanResult :=
    ScanResult(JNum(0.0), "", JArr([]), JArr([]), JArr([]), JStr("unknown"), JArr([]))

  const FailedSummary: string := "Failed to fetch scan results"
  const NoDataText: string := "No data returned from server."
  // Every warning starts with the warning sign U+26A0 U+FE0F and a space.
  const EmptyWarning: string := "\U{26A0}\U{FE0F} Received empty or invalid response from server."
  const MalformedWarning: string := "\U{26A0}\U{FE0F} Received incomplete or malformed JSON. Displaying cleaned text."
  const IncompleteWarning: string := "\U{26A0}\U{FE0F} Response appears incomplete."
  const ErrorWarning: string := "\U{26A0}\U{FE0F} An error occurred while fetching scan results."

  /** The fixed result of a non-ok status or a thrown error. */
  const Failure: ScanResult := Initial.(summary := FailedSummary)

  /**
   * The result built from a parsed reply, or `None` when building it throws:
   * a `null` reply has no properties, and a non-string summary has no
   * `trim` (nor `replace`), so `cleanRepetitiveText` throws on it.
   */
  function FromParsed(parsed: Json, accumulated: string): (r: Option<ScanResult>)
    ensures r.None? <==> parsed.JNull? || (Prop(parsed, "summary").Some? && !Prop(parsed, "summary").value.JStr?)
  {
    if parsed.JNull? then None
    else
      match Prop(parsed, "summary")
      case Some(v) =>
        if v.JStr? then Some(Fields(parsed, v.str)) else None
      case None => Some(Fields(parsed, accumulated))
  }

  /** Every field `parsed.k ?? default`, and the summary cleaned. */
  function Fields(parsed: Json, text: string): ScanResult {
    ScanResult(
      PropOr(parsed, "score", JNum(0.0)), Clean(text), PropOr(parsed, "bullets", JArr([])),
      PropOr(parsed, "highlights", JArr([])), PropOr(parsed, "policy", JArr([])),
      PropOr(parsed, "tone", JStr("unknown")), PropOr(parsed, "risks", JArr([])))
  }

  /** The repair heuristic: close with "}" unless already closed, then with "]" if a "[" occurs. */
  function Repair(accumulated: string): string {
    var closed := if EndsWith(accumulated, "}") then accumulated else accumulated + "}";
    if Contains(closed, "[") && !EndsWith(closed, "]") then closed + "]" else closed
  }

  /**
   * The repaired text extends the original by at most two characters, and
   * ends with "]" exactly when it contains "[" — otherwise with "}".
   */
  lemma RepairSpec(accumulated: string)
    ensures var r := Repair(accumulated);
      && StartsWith(r, accumulated) && |r| <= |accumulated| + 2
      && (EndsWith(r, "]") <==> '[' in accumulated)
      && ('[' !in accumulated ==> EndsWith(r, "}"))
      && (EndsWith(accumulated, "}") && '[' !in accumulated ==> r == accumulated)
  {
    var closed := if EndsWith(accumulated, "}") then accumulated else accumulated + "}";
    assert closed[|closed| - 1] == '}' by {
      if !EndsWith(accumulated, "}") { assert closed[|closed| - 1..] == "}"; }
      else { assert accumulated[|accumulated| - 1..] == "}"; }
    }
    ContainsChar(closed, '[');
    assert '[' in closed <==> '[' in accumulated by {
      if closed != accumulated {
        assert closed == accumulated + ['}'];
      }
    }
    var r := Repair(accumulated);
    if '[' in accumulated {
      assert r == closed + "]";
    } else {
      assert r == closed;
      assert r[|r| - 1..] == [r[|r| - 1]];
    }
  }

  /** The result and the warning once the stream has ended. */
  datatype Outcome = Outcome(result: ScanResult, warning: string)

  /**
   * After the stream: a JSON content type tries the text as it is, then
   * repaired, then falls back to the cleaned text with a warning; any other
   * content type shows the cleaned text and warns when it does not end with
   * a full stop. `last` is the result the stream left.
   */
  function Finish(contentType: string, accumulated: string, parse: string -> Option<Json>, last: ScanResult): Outcome {
    if Contains(contentType, "application/json") then
      var strict := if parse(accumulated).Some? then FromParsed(parse(accumulated).value, accumulated) else None;
      if strict.Some? then Outcome(strict.value, "")
      else
        var fixedJson := Repair(accumulated);
        var partial := if parse(fixedJson).Some? then FromParsed(parse(fixedJson).value, accumulated) else None;
        if partial.Some? then Outcome(partial.value, "")
        else Outcome(last.(summary := Clean(accumulated)), MalformedWarning)
    else
      var cleaned := Clean(accumulated);
      Outcome(last.(summary := cleaned), if EndsWith(cleaned, ".") then "" else IncompleteWarning)
  }

  /** What the backend call produced. */
  datatype Response =
    | Thrown                     // fetch rejected
    | NotOk                      // `!res.ok`
    | NoBody(text: string)       // `!res.body`
    | Stream(contentType: string, chunks: seq<string>, readFails: bool)
        // decoded chunks in order; `readFails`: a later read throws



  /**
   * The partial results shown while streaming: after chunk k, the start
   * result with only the summary replaced, by the cleaned concatenation of
   * the first k + 1 chunks.
   */
  function Partials(chunks: seq<string>): (ps: seq<ScanResult>)
    ensures |ps| == |chunks|
  {
    if |chunks| == 0 then []
    else Partials(chunks[..|chunks| - 1]) + [Initial.(summary := Clean(Concat(chunks)))]
  }

  /** One more chunk read: the text grows by the chunk and one more partial result is shown. */
  lemma PartialsStep(chunks: seq<string>, i: nat, accumulated: string)
    requires i < |chunks| && accumulated == Concat(chunks[..i])
    ensures Concat(chunks[..i + 1]) == accumulated + chunks[i]
    ensures Partials(chunks[..i + 1]) == Partials(chunks[..i]) + [Initial.(summary := Clean(accumulated + chunks[i]))]
  {
    ConcatSnoc(chunks, i);
    assert chunks[..i + 1][..i] == chunks[..i];
  }

  lemma ConcatSnoc(chunks: seq<string>, i: nat)
    requires i < |chunks|
    ensures Concat(chunks[..i + 1]) == Concat(chunks[..i]) + chunks[i]
  {
    assert chunks[..i + 1][..i] == chunks[..i];
  }

  /** The state `doScan` ends in. */
  function Final(resp: Response, parse: string -> Option<Json>): Outcome {
    match resp
    case Thrown => Outcome(Failure, ErrorWarning)
    case NotOk => Outcome(Failure, ErrorWarning)
    case NoBody(text) => Outcome(Initial.(summary := Clean(if text == "" then NoDataText else text)), EmptyWarning)
    case Stream(contentType, chunks, readFails) =>
      if readFails then Outcome(Failure, ErrorWarning)
      else Finish(contentType, Concat(chunks), parse, Initial)
  }

  /** Every result `doScan` publishes, in order. */
  function Published(resp: Response, parse: string -> Option<Json>): seq<ScanResult> {
    [Initial]
    + (if resp.Stream? then Partials(resp.chunks) else [])
    + [Final(resp, parse).result]
  }

  /** The outcome of a stream, given the result the stream left. */
  lemma StreamOutcome(contentType: string, chunks: seq<string>, readFails: bool, parse: string -> Option<Json>, last: ScanResult)
    requires last == Initial.(summary := last.summary)
    ensures Final(Stream(contentType, chunks, readFails), parse)
         == if readFails then Outcome(Failure, ErrorWarning) else Finish(contentType, Concat(chunks), parse, last)
  {
    FinishFromLast(contentType, Concat(chunks), parse, last);
  }

  /** The publications of `doScan`, appended to a log: the start result, the stream's partial results, the outcome's result. */
  lemma PublishedLog(log: seq<ScanResult>, resp: Response, parse: string -> Option<Json>, o: Outcome)
    requires o == Final(resp, parse)
    ensures log + [Initial] + (if resp.Stream? then Partials(resp.chunks) else []) + [o.result]
         == log + Published(resp, parse)
  {
    var mid := if resp.Stream? then Partials(resp.chunks) else [];
    AppendAssoc4(log, [Initial], mid, [o.result]);
  }

  /**
   * The outcomes of the final step: a parsed reply (strict or repaired)
   * never sets a warning and fills every missing field with its default; a
   * reply that cannot be parsed even after repair keeps every field but the
   * summary at its start value; plain text warns iff it does not end with
   * ".".
   */
  lemma FinishSpec(contentType: string, accumulated: string, parse: string -> Option<Json>)
    ensures var o := Finish(contentType, accumulated, parse, Initial);
      && (o.warning == "" || o.warning == MalformedWarning || o.warning == IncompleteWarning)
      && (o.warning == MalformedWarning <==>
            Contains(contentType, "application/json")
            && (parse(accumulated).None? || FromParsed(parse(accumulated).value, accumulated).None?)
            && (parse(Repair(accumulated)).None? || FromParsed(parse(Repair(accumulated)).value, accumulated).None?))
      && (o.warning == MalformedWarning ==> o.result == Initial.(summary := Clean(accumulated)))
      && (!Contains(contentType, "application/json") ==>
            o.result == Initial.(summary := Clean(accumulated))
            && (o.warning == IncompleteWarning <==> !EndsWith(Clean(accumulated), ".")))
      && (Contains(contentType, "application/json") && parse(accumulated).Some?
          && FromParsed(parse(accumulated).value, accumulated).Some? ==>
            o == Outcome(FromParsed(parse(accumulated).value, accumulated).value, ""))
      && (Contains(contentType, "application/json")
          && (parse(accumulated).None? || FromParsed(parse(accumulated).value, accumulated).None?)
          && parse(Repair(accumulated)).Some? && FromParsed(parse(Repair(accumulated)).value, accumulated).Some? ==>
            o == Outcome(FromParsed(parse(Repair(accumulated)).value, accumulated).value, ""))
      && (Contains(contentType, "application/json") ==> o.warning != IncompleteWarning)
  {
  }

  /** A parsed object's result: each field is the object's non-null value or its default, and the summary is cleaned. */
  lemma FromParsedFields(parsed: Json, accumulated: string)
    requires FromParsed(parsed, accumulated).Some?
    ensures var r := FromParsed(parsed, accumulated).value;
      && (Prop(parsed, "score").None? ==> r.score == JNum(0.0))
      && (Prop(parsed, "score").Some? ==> r.score == parsed.fields["score"])
      && (Prop(parsed, "tone").None? ==> r.tone == JStr("unknown"))
      && (Prop(parsed, "tone").Some? ==> r.tone == parsed.fields["tone"])
      && (Prop(parsed, "bullets").None? ==> r.bullets == JArr([]))
      && (Prop(parsed, "bullets").Some? ==> r.bullets == parsed.fields["bullets"])
      && (Prop(parsed, "highlights").None? ==> r.highlights == JArr([]))
      && (Prop(parsed, "highlights").Some? ==> r.highlights == parsed.fields["highlights"])
      && (Prop(parsed, "policy").None? ==> r.policy == JArr([]))
      && (Prop(parsed, "policy").Some? ==> r.policy == parsed.fields["policy"])
      && (Prop(parsed, "risks").None? ==> r.risks == JArr([]))
      && (Prop(parsed, "risks").Some? ==> r.risks == parsed.fields["risks"])
      && (Prop(parsed, "summary").None? ==> r.summary == Clean(accumulated))
      && (Prop(parsed, "summary").Some? ==> r.summary == Clean(parsed.fields["summary"].str))
  {
  }

  /** Only the summary of the result the stream left matters to the final step. */
  lemma FinishFromLast(contentType: string, accumulated: string, parse: string -> Option<Json>, last: ScanResult)
    requires last == Initial.(summary := last.summary)
    ensures Finish(contentType, accumulated, parse, last) == Finish(contentType, accumulated, parse, Initial)
  {
  }

  // ------------------------------------------------------------------
  // doScan

  /** The page state `doScan` drives. `shown` logs every result set, in order. */
  class AnalyzeView {
    var result: ScanResult
    var warning: string
    var running: bool
    ghost var shown: seq<ScanResult>

    constructor ()
      ensures result == Initial && warning == "" && !running && shown == []
    {
      result := Initial;
      warning := "";
      running := false;
      shown := [];
    }

    /** Publishes a result. */
    method SetResult(r: ScanResult)
      modifies this
      ensures result == r && shown == old(shown) + [r]
      ensures warning == old(warning) && running == old(running)
    {
      result := r;
      shown := shown + [r];
    }

    /** The `while (true)` read loop: append each chunk and republish the cleaned text as the summary. */
    method ReadAll(chunks: seq<string>) returns (accumulated: string)
      requires result == Initial
      modifies this
      ensures accumulated == Concat(chunks)
      ensures result == if chunks == [] then Initial else Initial.(summary := Clean(accumulated))
      ensures shown == old(shown) + Partials(chunks)
      ensures warning == old(warning) && running == old(running)
    {
      accumulated := "";
      var i := 0;
      while i < |chunks|
        invariant 0 <= i <= |chunks|
        invariant accumulated == Concat(chunks[..i])
        invariant result == if i == 0 then Initial else Initial.(summary := Clean(accumulated))
        invariant shown == old(shown) + Partials(chunks[..i])
        invariant warning == old(warning) && running == old(running)
      {
        ghost var before := shown;
        PartialsStep(chunks, i, accumulated);
        accumulated := Feed(chunks[i], accumulated);
        AppendAssoc(old(shown), Partials(chunks[..i]), [result]);
        i := i + 1;
      }
      assert chunks[..i] == chunks;
    }

    /** One pass of the read loop: `accumulated += chunk`, then the partial result with the new summary. */
    method Feed(chunk: string, accumulated: string) returns (next: string)
      requires result == Initial.(summary := result.summary)
      modifies this
      ensures next == accumulated + chunk
      ensures result == Initial.(summary := Clean(next)) && shown == old(shown) + [result]
      ensures warning == old(warning) && running == old(running)
    {
      next := accumulated + chunk;
      SetResult(result.(summary := Clean(next)));
    }

    /** The streaming branch of `doScan`: read every chunk, then finish unless a read throws. */
    method ReadStream(contentType: string, chunks: seq<string>, readFails: bool, parse: string -> Option<Json>)
      returns (o: Outcome)
      requires result == Initial
      modifies this
      ensures o == Final(Stream(contentType, chunks, readFails), parse)
      ensures shown == old(shown) + Partials(chunks)
      ensures warning == old(warning) && running == old(running)
    {
      var accumulated := ReadAll(chunks);
      assert result == Initial.(summary := result.summary);
      StreamOutcome(contentType, chunks, readFails, parse, result);
      if readFails {
        o := Outcome(Failure, ErrorWarning);
      } else {
        o := Finish(contentType, accumulated, parse, result);
      }
    }

    /** The body of `doScan`'s `try`: the outcome of the response, publishing the partial results of a stream. */
    method Respond(resp: Response, parse: string -> Option<Json>) returns (o: Outcome)
      requires result == Initial
      modifies this
      ensures o == Final(resp, parse)
      ensures shown == old(shown) + if resp.Stream? then Partials(resp.chunks) else []
      ensures warning == old(warning) && running == old(running)
    {
      match resp {
        case Thrown =>
          o := Outcome(Failure, ErrorWarning);
        case NotOk =>
          o := Outcome(Failure, ErrorWarning);
        case NoBody(text) =>
          var cleanedText := Clean(if text == "" then NoDataText else text);
          o := Outcome(result.(summary := cleanedText), EmptyWarning);
        case Stream(contentType, chunks, readFails) =>
          o := ReadStream(contentType, chunks, readFails, parse);
      }
    }

    /**
     * `doScan`: nothing happens without a URL; otherwise the state is reset,
     * every chunk is appended and republished, and the final result and
     * warning are those of `Final`; `running` is false on every path.
     */
    method DoScan(url: string, resp: Response, parse: string -> Option<Json>)
      modifies this
      ensures url == "" ==> result == old(result) && warning == old(warning)
                            && running == old(running) && shown == old(shown)
      ensures url != "" ==> !running && Outcome(result, warning) == Final(resp, parse)
                            && shown == old(shown) + Published(resp, parse)
    {
      if url == "" {
        return;
      }
      running := true;
      warning := "";
      // `setResult` of the start result, the response, then `setResult` of the outcome
      result, shown := Initial, shown + [Initial];
      var o := Respond(resp, parse);
      result, warning, running := o.result, o.warning, false;
      shown := shown + [o.result];
      PublishedLog(old(shown), resp, parse, o);
    }
  }
}
