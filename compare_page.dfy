/**
 * The dashboard's Compare page: the record kept for each scanned site,
 * the score difference, the sentence naming the more transparent site,
 * and the "Data Collected" label.
 *
 * JavaScript's conversion of a value to a number is modelled for numbers,
 * booleans, `null` and absent properties (`NotANumber` for the rest);
 * converting the difference to text is a parameter.
 */
module ComparePage {
  import opened Base
  import opened Json

  /** A JavaScript number: a real, or NaN. */
  datatype Num = Number(v: real) | NotANumber

  /** The raw property: `None` when it is absent (`undefined`). */
  function Raw(v: Json, k: string): Option<Json> {
    if v.JObj? && k in v.fields then Some(v.fields[k]) else None
  }

  function ToNumber(v: Option<Json>): Num {
    match v
    case Some(JNum(n)) => Number(n)
    case Some(JNull) => Number(0.0)
    case Some(JBool(b)) => Number(if b then 1.0 else 0.0)
    case _ => NotANumber
  }

  /** `a > b`: false whenever either side is NaN. */
  predicate Greater(a: Num, b: Num) {
    a.Number? && b.Number? && a.v > b.v
  }

  datatype TrackerCount = Count(n: nat) | Unknown

  datatype Site = Site(url: Option<Json>, score: Option<Json>, sharing: Option<Json>, trackers: TrackerCount, summary: Json)

  /** `data.trackers?.length || "Unknown"`. */
  function Trackers(data: Json): (t: TrackerCount)
    ensures t.Count? ==> t.n >= 1
  {
    match Raw(data, "trackers")
    case Some(JArr(xs)) => if |xs| >= 1 then Count(|xs|) else Unknown
    case Some(JStr(s)) => if |s| >= 1 then Count(|s|) else Unknown
    case _ => Unknown
  }

  /** `fetchSiteData`: `None` when the request or the body fails (`null` is stored), or the body is `null`. */
  function FetchSite(body: Option<Json>): Option<Site> {
    match body
    case None => None
    case Some(data) =>
      if data.JNull? then None
      else
        var s := Raw(data, "summary");
        Some(Site(Raw(data, "url"), Raw(data, "score"), Raw(data, "classification"), Trackers(data),
                  if s.Some? && JsTruthy(s.value) then s.value else JStr("No summary available")))
  }

  /** The site record: tracker counts of 0 read "Unknown", and a missing or empty summary the fixed text. */
  lemma FetchSiteSpec(data: map<string, Json>)
    ensures var s := FetchSite(Some(JObj(data))).value;
      && ("trackers" in data && data["trackers"].JArr? ==>
            (s.trackers == Unknown <==> data["trackers"].items == []))
      && ("trackers" in data && data["trackers"].JArr? && data["trackers"].items != [] ==>
            s.trackers == Count(|data["trackers"].items|))
      && ("trackers" !in data ==> s.trackers == Unknown)
      && ("summary" !in data ==> s.summary == JStr("No summary available"))
      && ("summary" in data && data["summary"].JStr? && data["summary"].str != "" ==> s.summary == data["summary"])
  {
  }

  /** A failed fetch stores `null`. */
  lemma FailedFetchIsNull()
    ensures FetchSite(None).None?
  {
  }

  /** `A && B ? Math.abs(B.score - A.score) : 0`. */
  function TransparencyDiff(a: Option<Site>, b: Option<Site>): Num {
    if a.None? || b.None? then Number(0.0)
    else
      var x, y := ToNumber(a.value.score), ToNumber(b.value.score);
      if x.NotANumber? || y.NotANumber? then NotANumber
      else Number(if y.v - x.v < 0.0 then x.v - y.v else y.v - x.v)
  }

  /** The difference is symmetric, never negative, 0 when a side is missing, and 0 exactly for equal scores. */
  lemma DiffSpec(a: Option<Site>, b: Option<Site>)
    ensures TransparencyDiff(a, b) == TransparencyDiff(b, a)
    ensures TransparencyDiff(a, b).Number? ==> TransparencyDiff(a, b).v >= 0.0
    ensures a.None? || b.None? ==> TransparencyDiff(a, b) == Number(0.0)
    ensures a.Some? && b.Some? && ToNumber(a.value.score).Number? && ToNumber(b.value.score).Number? ==>
      (TransparencyDiff(a, b) == Number(0.0) <==> ToNumber(a.value.score) == ToNumber(b.value.score))
  {
  }

  /** The sentence under the comparison bar; `show` converts the difference to text. */
  function Winner(nameA: string, nameB: string, a: Site, b: Site, show: Num -> string): string {
    var diff := show(TransparencyDiff(Some(a), Some(b)));
    (if Greater(ToNumber(b.score), ToNumber(a.score)) then nameB else nameA) + " is " + diff + "% more transparent"
  }

  /** Site b is named exactly when its score is strictly higher; a tie names site a. */
  lemma WinnerSpec(nameA: string, nameB: string, a: Site, b: Site, show: Num -> string)
    ensures Greater(ToNumber(b.score), ToNumber(a.score)) ==> StartsWith(Winner(nameA, nameB, a, b, show), nameB)
    ensures !Greater(ToNumber(b.score), ToNumber(a.score)) ==> StartsWith(Winner(nameA, nameB, a, b, show), nameA)
    ensures ToNumber(a.score) == ToNumber(b.score) ==> StartsWith(Winner(nameA, nameB, a, b, show), nameA)
  {
    var w := Winner(nameA, nameB, a, b, show);
    var d := show(TransparencyDiff(Some(a), Some(b)));
    if Greater(ToNumber(b.score), ToNumber(a.score)) {
      assert w == nameB + (" is " + d + "% more transparent");
      assert w[..|nameB|] == nameB;
    } else {
      assert w == nameA + (" is " + d + "% more transparent");
      assert w[..|nameA|] == nameA;
    }
  }

  function DataCollected(site: Site): string {
    if Greater(ToNumber(site.score), Number(80.0)) then "Minimal" else "Personal & Identifiers"
  }

  /** "Minimal" exactly for numeric scores above 80. */
  lemma DataCollectedSpec(site: Site)
    ensures DataCollected(site) == "Minimal" <==> ToNumber(site.score).Number? && ToNumber(site.score).v > 80.0
  {
  }
}
