/**
 * `predict_transparency` and its keyword features: five `re.findall`
 * counts over the lower-cased policy, a weighted risk-point sum, a score
 * clamped to [0, 100], three label bands and a confidence.
 *
 * The trained model with its vectoriser is a parameter: `None` when none
 * was loaded, otherwise a function from the text to the index of the most
 * probable class and its probability (`None` when it raises).
 */
module ModelService {
  import opened Base

  /** A regular-expression token: a literal character, or `.?` (any character but a line feed, optionally). */
  datatype Tok = Lit(c: char) | AnyOpt

  function Lits(w: string): (p: seq<Tok>)
    ensures |p| == |w| && forall i :: 0 <= i < |w| ==> p[i] == Lit(w[i])
  {
    if w == "" then [] else [Lit(w[0])] + Lits(w[1..])
  }

  /** A pattern that starts with a literal character, and so only matches non-empty text. */
  datatype Pattern = Pattern(head: char, tail: seq<Tok>)

  function Word(w: string): Pattern
    requires |w| > 0
  {
    Pattern(w[0], Lits(w[1..]))
  }

  function Followed(p: Pattern, t: seq<Tok>): Pattern {
    Pattern(p.head, p.tail + t)
  }

  /**
   * The length of the match of `p` at `i` that a backtracking matcher
   * finds first: `.?` is greedy and tries one character before none.
   */
  function MatchAt(s: string, i: nat, p: seq<Tok>): (r: Option<nat>)
    requires i <= |s|
    decreases |p|
    ensures r.Some? ==> i + r.value <= |s|
  {
    if p == [] then Some(0)
    else match p[0]
      case Lit(c) =>
        if i < |s| && s[i] == c then
          (match MatchAt(s, i + 1, p[1..])
           case Some(k) => Some(k + 1)
           case None => None)
        else None
      case AnyOpt =>
        var one := if i < |s| && s[i] != '\n' then MatchAt(s, i + 1, p[1..]) else None;
        if one.Some? then Some(one.value + 1) else MatchAt(s, i, p[1..])
  }

  function MatchPattern(s: string, i: nat, p: Pattern): (r: Option<nat>)
    requires i <= |s|
    ensures r.Some? ==> 1 <= r.value && i + r.value <= |s|
  {
    if i < |s| && s[i] == p.head then
      match MatchAt(s, i + 1, p.tail)
      case Some(k) => Some(k + 1)
      case None => None
    else None
  }

  /** An alternation: the first alternative that matches at `i`. */
  function FirstAlt(s: string, i: nat, alts: seq<Pattern>): (r: Option<nat>)
    requires i <= |s|
    ensures r.Some? ==> 1 <= r.value && i + r.value <= |s|
    ensures r.None? <==> forall k :: 0 <= k < |alts| ==> MatchPattern(s, i, alts[k]).None?
  {
    if alts == [] then None
    else
      var m := MatchPattern(s, i, alts[0]);
      if m.Some? then m
      else
        var r := FirstAlt(s, i, alts[1..]);
        assert forall k :: 1 <= k < |alts| ==> alts[k] == alts[1..][k - 1];
        r
  }

  /** `len(re.findall(alts, s[i:]))`: non-overlapping matches, scanning left to right. */
  function CountFrom(s: string, i: nat, alts: seq<Pattern>): nat
    requires i <= |s|
    decreases |s| - i
  {
    if i == |s| then 0
    else
      match FirstAlt(s, i, alts)
      case Some(k) => 1 + CountFrom(s, i + k, alts)
      case None => CountFrom(s, i + 1, alts)
  }

  function Matches(s: string, alts: seq<Pattern>): nat {
    CountFrom(s, 0, alts)
  }

  const Collection: seq<Pattern> := [Word("collect"), Word("gather"), Word("store"), Word("retain")]
  const ThirdParty: seq<Pattern> := [Followed(Word("third"), [AnyOpt] + Lits("party")), Word("affiliate"), Word("partner")]
  const Tracking: seq<Pattern> := [Word("track"), Word("cookie"), Word("analytics"), Word("beacon")]
  const Sharing: seq<Pattern> := [Word("share"), Word("sell"), Word("disclose"), Word("transfer")]
  const UserRights: seq<Pattern> := [Word("access"), Word("delete"), Followed(Word("opt"), [AnyOpt] + Lits("out")), Word("control"), Word("consent")]

  datatype KeywordFeatures = KeywordFeatures(dataCollection: nat, thirdParty: nat, tracking: nat, sharing: nat, userRights: nat)

  /** `extract_features`. */
  function ExtractFeatures(policyText: string): KeywordFeatures {
    var text := Lower(policyText);
    KeywordFeatures(Matches(text, Collection), Matches(text, ThirdParty), Matches(text, Tracking),
                    Matches(text, Sharing), Matches(text, UserRights))
  }

  function RiskPoints(f: KeywordFeatures): int {
    f.dataCollection * 2 + f.thirdParty * 3 + f.tracking * 2 + f.sharing * 4 - f.userRights * 3
  }

  /** `min(max(0, 100 - 2 * risk_points), 100)`. */
  function Score(riskPoints: int): int {
    var raw := if 100 - riskPoints * 2 > 0 then 100 - riskPoints * 2 else 0;
    if raw < 100 then raw else 100
  }

  function Label(score: real): string {
    if score > 75.0 then "Safe" else if score > 45.0 then "Neutral" else "Risky"
  }

  function Abs(x: real): real {
    if x < 0.0 then -x else x
  }

  datatype Transparency = Transparency(score: real, classLabel: string, confidence: real)

  const Unknown: Transparency := Transparency(0.0, "Unknown", 0.0)

  /** The heuristic branch; the final `round(·, 2)` calls are not modelled. */
  function Heuristic(policyText: string): Transparency {
    var score := Score(RiskPoints(ExtractFeatures(policyText))) as real;
    Transparency(score, Label(score), Abs(score - 50.0) / 50.0)
  }

  function LabelOf(index: nat): string {
    if index == 0 then "Risky" else if index == 1 then "Neutral" else if index == 2 then "Safe" else "Neutral"
  }

  /** `predict_transparency`. */
  function PredictTransparency(policyText: string, trained: Option<string -> Option<(nat, real)>>): Transparency {
    if trained.Some? then
      match trained.value(policyText)
      case None => Unknown
      case Some((index, confidence)) => Transparency(confidence * 100.0, LabelOf(index), confidence)
    else Heuristic(policyText)
  }

  /**
   * The score is clamped into [0, 100] whatever the risk points, including
   * negative ones; it never rises when the risk points do.
   */
  lemma ScoreSpec(a: int, b: int)
    ensures 0 <= Score(a) <= 100
    ensures a <= 0 ==> Score(a) == 100
    ensures a >= 50 ==> Score(a) == 0
    ensures a <= b ==> Score(b) <= Score(a)
  {
  }

  /** The heuristic result: score in [0, 100], confidence in [0, 1], and the label bands. */
  lemma HeuristicSpec(policyText: string)
    ensures var t := Heuristic(policyText);
      && 0.0 <= t.score <= 100.0
      && 0.0 <= t.confidence <= 1.0
      && (t.classLabel == "Safe" <==> t.score > 75.0)
      && (t.classLabel == "Neutral" <==> 45.0 < t.score <= 75.0)
      && (t.classLabel == "Risky" <==> t.score <= 45.0)
  {
    ScoreSpec(RiskPoints(ExtractFeatures(policyText)), 0);
  }

  /** Without a trained model the heuristic decides; a model that raises gives the fixed unknown result. */
  lemma PredictSpec(policyText: string, trained: string -> Option<(nat, real)>)
    ensures PredictTransparency(policyText, None) == Heuristic(policyText)
    ensures trained(policyText).None? ==> PredictTransparency(policyText, Some(trained)) == Unknown
  {
  }

  predicate MatchesFrom(s: string, i: nat, alts: seq<Pattern>)
    requires i <= |s|
  {
    exists j :: i <= j <= |s| && FirstAlt(s, j, alts).Some?
  }

  /** Some match is counted exactly when some alternative matches somewhere at or after `i`. */
  lemma {:induction false} CountPositive(s: string, i: nat, alts: seq<Pattern>)
    requires i <= |s|
    decreases |s| - i
    ensures CountFrom(s, i, alts) > 0 <==> MatchesFrom(s, i, alts)
  {
    if i == |s| {
      forall j | i <= j <= |s| ensures FirstAlt(s, j, alts).None? {
        assert j == |s|;
      }
    } else if FirstAlt(s, i, alts).None? {
      CountPositive(s, i + 1, alts);
      if MatchesFrom(s, i, alts) {
        var j :| i <= j <= |s| && FirstAlt(s, j, alts).Some?;
        assert i + 1 <= j;
      }
    } else {
      assert FirstAlt(s, i, alts).Some?;
    }
  }

  /** A text in which no keyword of a group can match contributes nothing to that group. */
  lemma NoMatchNoCount(s: string, alts: seq<Pattern>)
    requires forall j :: 0 <= j <= |s| ==> FirstAlt(s, j, alts).None?
    ensures Matches(s, alts) == 0
  {
    CountPositive(s, 0, alts);
  }
}
