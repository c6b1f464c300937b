/**
 * The extension popup: it reads the stored summary and writes the site,
 * the summary text, the score with one colour class, and the tracker and
 * cookie lists into the page.
 *
 * JavaScript's conversion of a value to text (`textContent = v`, a
 * template `${v}`) is the parameter `show`.
 */
module Popup {
  import opened Base
  import opened Json

  const NoScan: string := "No scan performed yet."
  const NoTrackers: string := "<li>No trackers found ✅</li>"
  const NoCookies: string := "<li>No cookies listed</li>"

  /** `info.summary?.summary || info.summary || "No summary"`. */
  function SummaryText(info: Json): Json {
    var s := Prop(info, "summary");
    OrElse(if s.Some? then Prop(s.value, "summary") else None, OrElse(s, JStr("No summary")))
  }

  /** `info.score ?? 50`. */
  function Score(info: Json): Json {
    PropOr(info, "score", JNum(50.0))
  }

  /** The colour class of a score; values that are not numbers or booleans compare as NaN. */
  function ScoreClass(score: Json): string {
    var n := match score
      case JNum(x) => Some(x)
      case JBool(b) => Some(if b then 1.0 else 0.0)
      case _ => None;
    if n.Some? && n.value <= 25.0 then "low"
    else if n.Some? && n.value <= 60.0 then "medium"
    else "high"
  }

  /** `t.name || t`; `None` when `t` is `null` (reading its name throws). */
  function TrackerLabel(t: Json): Option<Json> {
    if t.JNull? then None else Some(OrElse(Prop(t, "name"), t))
  }

  function TrackerItems(ts: seq<Json>, show: Json -> string): string
    requires JNull !in ts
  {
    if ts == [] then ""
    else TrackerItems(ts[..|ts| - 1], show) + "<li>" + show(TrackerLabel(ts[|ts| - 1]).value) + "</li>"
  }

  /** The index of the first `null` element, or the length when there is none. */
  function FirstNull(ts: seq<Json>): (k: nat)
    ensures k <= |ts| && JNull !in ts[..k] && (k < |ts| ==> ts[k] == JNull)
  {
    if ts == [] then 0
    else if ts[0] == JNull then 0
    else
      var k := FirstNull(ts[1..]);
      assert ts[..k + 1] == [ts[0]] + ts[1..][..k];
      k + 1
  }

  function CookieItems(cs: seq<Json>, show: Json -> string): string {
    if cs == [] then "" else CookieItems(cs[..|cs| - 1], show) + "<li>" + show(cs[|cs| - 1]) + "</li>"
  }

  /** `(v || [])` as the list `forEach` walks; `None` when `v` is truthy but not a list (`forEach` is missing and the call throws). */
  function ListOf(v: Option<Json>): Option<seq<Json>> {
    if v.Some? && JsTruthy(v.value) then (if v.value.JArr? then Some(v.value.items) else None)
    else Some([])
  }

  /** `!v?.length`. */
  predicate NoLength(v: Option<Json>) {
    match v
    case Some(JArr(xs)) => xs == []
    case Some(JStr(s)) => s == ""
    case _ => true
  }

  /** Exactly one of the three classes, by the bands (25, 60]. */
  lemma ScoreClassSpec(score: Json)
    ensures ScoreClass(score) in {"low", "medium", "high"}
    ensures score.JNum? ==> (ScoreClass(score) == "low" <==> score.n <= 25.0)
    ensures score.JNum? ==> (ScoreClass(score) == "medium" <==> 25.0 < score.n <= 60.0)
    ensures score.JNum? ==> (ScoreClass(score) == "high" <==> score.n > 60.0)
  {
  }

  /** The score falls back to 50 only when it is `null` or absent: a score of 0 is kept, and 50 is "medium". */
  lemma ScoreDefault(m: map<string, Json>)
    ensures "score" !in m || m["score"] == JNull ==> Score(JObj(m)) == JNum(50.0) && ScoreClass(Score(JObj(m))) == "medium"
    ensures "score" in m && m["score"] == JNum(0.0) ==> Score(JObj(m)) == JNum(0.0) && ScoreClass(Score(JObj(m))) == "low"
  {
  }

  /** The summary chain: a nested summary first, then the summary itself, then "No summary". */
  lemma SummaryTextSpec(m: map<string, Json>, inner: map<string, Json>, s: string)
    ensures "summary" in inner && inner["summary"] == JStr(s) && s != "" ==>
      SummaryText(JObj(m["summary" := JObj(inner)])) == JStr(s)
    ensures s != "" ==> SummaryText(JObj(m["summary" := JStr(s)])) == JStr(s)
    ensures "summary" !in m ==> SummaryText(JObj(m)) == JStr("No summary")
  {
  }

  /** A list renders one item per element, and the placeholder only when it is empty or missing. */
  lemma {:induction false} CookieItemsCount(cs: seq<Json>, show: Json -> string)
    ensures CookieItems(cs, show) == "" <==> cs == []
  {
    if cs != [] {
      assert |CookieItems(cs, show)| >= 4;
    }
  }

  class PopupView {
    var site: string
    var summary: string
    var scoreText: string
    /** The classes `classList.add` added to the score element. */
    var scoreClasses: seq<string>
    var trackersHtml: string
    var cookiesHtml: string

    constructor()
      ensures site == "" && summary == "" && scoreText == "" && scoreClasses == []
      ensures trackersHtml == "" && cookiesHtml == ""
    {
      site, summary, scoreText, scoreClasses := "", "", "", [];
      trackersHtml, cookiesHtml := "", "";
    }

    /** The tracker `forEach` loop. */
    method AppendTrackers(ts: seq<Json>, show: Json -> string)
      requires JNull !in ts
      modifies this
      ensures trackersHtml == old(trackersHtml) + TrackerItems(ts, show)
      ensures site == old(site) && summary == old(summary) && scoreText == old(scoreText)
      ensures scoreClasses == old(scoreClasses) && cookiesHtml == old(cookiesHtml)
    {
      var i := 0;
      while i < |ts|
        invariant 0 <= i <= |ts|
        invariant JNull !in ts[..i]
        invariant trackersHtml == old(trackersHtml) + TrackerItems(ts[..i], show)
        invariant site == old(site) && summary == old(summary) && scoreText == old(scoreText)
        invariant scoreClasses == old(scoreClasses) && cookiesHtml == old(cookiesHtml)
      {
        SliceSnoc(ts, i);
        assert ts[..i + 1][..i] == ts[..i];
        var t := ts[i];
        var name := OrElse(Prop(t, "name"), t);
        AppendAssoc4(old(trackersHtml), TrackerItems(ts[..i], show), "<li>" + show(name), "</li>");
        trackersHtml := trackersHtml + "<li>" + show(name) + "</li>";
        i := i + 1;
      }
      PrefixAll(ts);
    }

    /** The cookie `forEach` loop. */
    method AppendCookies(cs: seq<Json>, show: Json -> string)
      modifies this
      ensures cookiesHtml == old(cookiesHtml) + CookieItems(cs, show)
      ensures site == old(site) && summary == old(summary) && scoreText == old(scoreText)
      ensures scoreClasses == old(scoreClasses) && trackersHtml == old(trackersHtml)
    {
      var i := 0;
      while i < |cs|
        invariant 0 <= i <= |cs|
        invariant cookiesHtml == old(cookiesHtml) + CookieItems(cs[..i], show)
        invariant site == old(site) && summary == old(summary) && scoreText == old(scoreText)
        invariant scoreClasses == old(scoreClasses) && trackersHtml == old(trackersHtml)
      {
        SliceSnoc(cs, i);
        AppendAssoc4(old(cookiesHtml), CookieItems(cs[..i], show), "<li>" + show(cs[i]), "</li>");
        cookiesHtml := cookiesHtml + "<li>" + show(cs[i]) + "</li>";
        i := i + 1;
      }
      PrefixAll(cs);
    }

    /**
     * The storage callback. With nothing stored only the summary is
     * written. Otherwise every field is written from the stored value;
     * a tracker value that is truthy but not a list throws before any
     * item is written, and a `null` tracker throws after the items before
     * it; the cookies are then not written.
     */
    method Render(stored: Option<Json>, show: Json -> string)
      modifies this
      ensures stored.None? || !JsTruthy(stored.value) ==>
        summary == NoScan && site == old(site) && scoreText == old(scoreText)
        && scoreClasses == old(scoreClasses) && trackersHtml == old(trackersHtml) && cookiesHtml == old(cookiesHtml)
      ensures stored.Some? && JsTruthy(stored.value) ==>
        var info := stored.value;
        && site == show(OrElse(Prop(info, "url"), JStr("Unknown")))
        && summary == show(SummaryText(info))
        && scoreText == show(Score(info))
        && scoreClasses == old(scoreClasses) + [ScoreClass(Score(info))]
      ensures stored.Some? && JsTruthy(stored.value) ==>
        var info := stored.value;
        var ts := ListOf(Prop(info, "trackers"));
        var cs := ListOf(Prop(info, "cookies"));
        && (ts.None? ==> trackersHtml == "" && cookiesHtml == old(cookiesHtml))
        && (ts.Some? && JNull in ts.value ==>
              trackersHtml == TrackerItems(ts.value[..FirstNull(ts.value)], show) && cookiesHtml == old(cookiesHtml))
        && (ts.Some? && JNull !in ts.value ==>
              trackersHtml == (if NoLength(Prop(info, "trackers")) then NoTrackers else TrackerItems(ts.value, show)))
        && (ts.Some? && JNull !in ts.value && cs.Some? ==>
              cookiesHtml == (if NoLength(Prop(info, "cookies")) then NoCookies else CookieItems(cs.value, show)))
        && (ts.Some? && JNull !in ts.value && cs.None? ==> cookiesHtml == "")
    {
      if stored.None? || !JsTruthy(stored.value) {
        summary := NoScan;
        return;
      }
      var info := stored.value;
      site := show(OrElse(Prop(info, "url"), JStr("Unknown")));
      summary := show(SummaryText(info));
      var score := Score(info);
      scoreText := show(score);
      scoreClasses := scoreClasses + [ScoreClass(score)];

      trackersHtml := "";
      var ts := ListOf(Prop(info, "trackers"));
      if ts.None? {
        return;
      }
      var k := FirstNull(ts.value);
      AppendTrackers(ts.value[..k], show);
      if k < |ts.value| {
        return;
      }
      assert ts.value[..k] == ts.value;
      if NoLength(Prop(info, "trackers")) {
        trackersHtml := NoTrackers;
      }

      cookiesHtml := "";
      var cs := ListOf(Prop(info, "cookies"));
      if cs.None? {
        return;
      }
      AppendCookies(cs.value, show);
      if NoLength(Prop(info, "cookies")) {
        cookiesHtml := NoCookies;
      }
    }
  }
}
