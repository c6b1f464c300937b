/**
 * The dashboard's Reports page: one report row per stored scan, the five
 * metric cards, the search filter, the ten visible rows, and the line
 * cursor of the PDF export.
 *
 * The URL parser (`new URL(u).hostname`, `None` when it throws), the
 * number-to-text conversion of a score, and jsPDF's line wrapping (the
 * number of lines each report takes) are parameters. Dates are not
 * modelled.
 */
module ReportsPage {
  import opened Base
  import opened Json

  /** A stored scan as the history endpoint returns it. */
  datatype Doc = Doc(id: string, url: string, score: real, classification: string,
                     cookies: Option<seq<string>>, trackers: Option<seq<Json>>)

  datatype Report = Report(id: string, domain: string, score: real, shared: string, risk: string,
                           status: string, cookies: seq<string>, trackers: seq<Json>, raw: Doc)

  function Status(score: real): string {
    if score > 50.0 then "Flagged" else "Reviewed"
  }

  /** One row; `None` when the URL does not parse. */
  function Format(doc: Doc, hostname: string -> Option<string>, show: real -> string): Option<Report> {
    match hostname(doc.url)
    case None => None
    case Some(h) =>
      Some(Report(doc.id, h, doc.score, show(doc.score) + "%", doc.classification, Status(doc.score),
                  if doc.cookies.Some? then doc.cookies.value else [],
                  if doc.trackers.Some? then doc.trackers.value else [], doc))
  }

  /** `data.map(format)`: the whole page load fails when one URL does not parse. */
  function FormatAll(docs: seq<Doc>, hostname: string -> Option<string>, show: real -> string): (r: Option<seq<Report>>)
    ensures r.Some? <==> forall i :: 0 <= i < |docs| ==> Format(docs[i], hostname, show).Some?
    ensures r.Some? ==> |r.value| == |docs| && forall i :: 0 <= i < |docs| ==> Format(docs[i], hostname, show) == Some(r.value[i])
  {
    if docs == [] then Some([])
    else
      var rest := FormatAll(docs[1..], hostname, show);
      var first := Format(docs[0], hostname, show);
      assert forall i :: 1 <= i < |docs| ==> docs[i] == docs[1..][i - 1];
      if first.None? || rest.None? then None else Some([first.value] + rest.value)
  }

  /** A row's status is "Flagged" exactly for scores above 50, and its shared text is the score followed by "%". */
  lemma FormatSpec(doc: Doc, hostname: string -> Option<string>, show: real -> string)
    requires hostname(doc.url).Some?
    ensures var r := Format(doc, hostname, show).value;
      && r.domain == hostname(doc.url).value
      && (r.status == "Flagged" <==> doc.score > 50.0)
      && (r.status == "Reviewed" <==> doc.score <= 50.0)
      && r.shared == show(doc.score) + "%" && EndsWith(r.shared, "%")
      && (doc.cookies.None? ==> r.cookies == [])
  {
    var r := Format(doc, hostname, show).value;
    assert r.shared[|r.shared| - 1..] == "%";
  }

  // ------------------------------------------------------------------
  // Metrics

  function TotalScore(docs: seq<Doc>): real {
    if docs == [] then 0.0 else TotalScore(docs[..|docs| - 1]) + docs[|docs| - 1].score
  }

  function AverageScore(docs: seq<Doc>): int {
    if |docs| > 0 then Round(TotalScore(docs) / |docs| as real) else 0
  }

  /** The three counting cards and the documents each counts. */
  datatype Card = TrackersCard | CookiesCard | HighRiskCard

  predicate Counted(c: Card, d: Doc) {
    match c
    case TrackersCard => d.trackers.Some? && d.trackers.value != []
    case CookiesCard => d.cookies.Some? && d.cookies.value != []
    case HighRiskCard => d.score > 50.0
  }

  function CountIf(docs: seq<Doc>, c: Card): (n: nat)
    ensures n <= |docs|
  {
    if docs == [] then 0 else (if Counted(c, docs[0]) then 1 else 0) + CountIf(docs[1..], c)
  }

  datatype Metrics = Metrics(privacyScore: int, dataShared: int, withTrackers: nat, withCookies: nat, highRisk: nat)

  /** The five cards; `None` when a document has no tracker or cookie list (reading its length throws). */
  function MetricsOf(docs: seq<Doc>): Option<Metrics> {
    if exists i :: 0 <= i < |docs| && (docs[i].trackers.None? || docs[i].cookies.None?) then None
    else
      var avg := AverageScore(docs);
      Some(Metrics(avg, Round(100.0 - avg as real),
        CountIf(docs, TrackersCard), CountIf(docs, CookiesCard), CountIf(docs, HighRiskCard)))
  }

  lemma {:induction false} TotalBounds(docs: seq<Doc>)
    requires forall i :: 0 <= i < |docs| ==> 0.0 <= docs[i].score <= 100.0
    ensures 0.0 <= TotalScore(docs) <= 100.0 * |docs| as real
  {
    if docs != [] {
      var init := docs[..|docs| - 1];
      assert forall i :: 0 <= i < |init| ==> init[i] == docs[i];
      TotalBounds(init);
    }
  }

  lemma RoundBounds(x: real)
    requires 0.0 <= x <= 100.0
    ensures 0 <= Round(x) <= 100
  {
  }

  /**
   * No data gives an average of 0; scores within [0, 100] give an average
   * within [0, 100]; "Data Shared" is always 100 minus the average.
   */
  lemma MetricsSpec(docs: seq<Doc>)
    requires MetricsOf(docs).Some?
    ensures var m := MetricsOf(docs).value;
      && (docs == [] ==> m.privacyScore == 0)
      && ((forall i :: 0 <= i < |docs| ==> 0.0 <= docs[i].score <= 100.0) ==> 0 <= m.privacyScore <= 100)
      && m.dataShared == 100 - m.privacyScore
      && m.withTrackers <= |docs| && m.withCookies <= |docs| && m.highRisk <= |docs|
  {
    if docs != [] && forall i :: 0 <= i < |docs| ==> 0.0 <= docs[i].score <= 100.0 {
      TotalBounds(docs);
      DivBound(TotalScore(docs), |docs| as real);
      RoundBounds(TotalScore(docs) / |docs| as real);
    }
    var avg := AverageScore(docs);
    assert 100.0 - avg as real + 0.5 == (100 - avg) as real + 0.5;
  }

  function CountFlagged(rs: seq<Report>): nat {
    if rs == [] then 0 else (if rs[0].status == "Flagged" then 1 else 0) + CountFlagged(rs[1..])
  }

  /** The "High Risk Sites" card counts exactly the rows marked "Flagged". */
  lemma {:induction false} HighRiskIsFlagged(docs: seq<Doc>, hostname: string -> Option<string>, show: real -> string)
    requires FormatAll(docs, hostname, show).Some?
    ensures CountIf(docs, HighRiskCard) == CountFlagged(FormatAll(docs, hostname, show).value)
  {
    if docs != [] {
      HighRiskIsFlagged(docs[1..], hostname, show);
    }
  }

  // ------------------------------------------------------------------
  // Search and the visible window

  predicate Matching(r: Report, query: string) {
    Contains(Lower(r.domain), Lower(query))
  }

  function Keep(rs: seq<Report>, query: string): (r: seq<Report>)
    ensures |r| <= |rs|
  {
    if rs == [] then [] else (if Matching(rs[0], query) then [rs[0]] else []) + Keep(rs[1..], query)
  }

  /** An empty search shows every report. */
  function SearchFilter(rs: seq<Report>, search: string): seq<Report> {
    if search == "" then rs else Keep(rs, search)
  }

  /** The filter keeps the rows in their order: it distributes over concatenation. */
  lemma {:induction false} KeepAppend(xs: seq<Report>, ys: seq<Report>, query: string)
    ensures Keep(xs + ys, query) == Keep(xs, query) + Keep(ys, query)
  {
    if xs != [] {
      KeepAppend(xs[1..], ys, query);
      assert (xs + ys)[0] == xs[0];
      assert (xs + ys)[1..] == xs[1..] + ys;
      var head := if Matching(xs[0], query) then [xs[0]] else [];
      assert Keep(xs + ys, query) == head + Keep(xs[1..] + ys, query);
      assert Keep(xs, query) == head + Keep(xs[1..], query);
      AppendAssoc(head, Keep(xs[1..], query), Keep(ys, query));
    } else {
      assert xs + ys == ys;
    }
  }

  /** The filter keeps exactly the matching rows. */
  lemma {:induction false} KeepMembers(xs: seq<Report>, query: string)
    ensures forall r :: r in Keep(xs, query) <==> r in xs && Matching(r, query)
  {
    if xs != [] {
      KeepMembers(xs[1..], query);
      assert xs == [xs[0]] + xs[1..];
    }
  }

  /** A search for the empty text would match every row anyway. */
  lemma EmptySearchKeepsAll(rs: seq<Report>)
    ensures SearchFilter(rs, "") == rs
    ensures Keep(rs, "") == rs
  {
    if rs != [] {
      EmptySearchKeepsAll(rs[1..]);
      assert OccursAt(Lower(rs[0].domain), "", 0);
      ContainsAt(Lower(rs[0].domain), "", 0);
    }
  }

  function Visible(rs: seq<Report>): (v: seq<Report>)
    ensures |v| == Min(|rs|, 10) && v == rs[..|v|]
  {
    rs[..Min(|rs|, 10)]
  }

  // ------------------------------------------------------------------
  // The PDF cursor

  const PageBottom: int := 280
  const FirstLine: int := 36
  const TopLine: int := 20

  /** Where each report is written, the final cursor, and the pages used, for the given line counts. */
  datatype Layout = Layout(positions: seq<int>, y: int, pages: nat)

  function Advance(y: int, lines: nat): int {
    var next := y + lines * 6 + 4;
    if next > PageBottom then TopLine else next
  }

  function PdfLayout(lineCounts: seq<nat>): Layout {
    if lineCounts == [] then Layout([], FirstLine, 1)
    else
      var l := PdfLayout(lineCounts[..|lineCounts| - 1]);
      var next := l.y + lineCounts[|lineCounts| - 1] * 6 + 4;
      Layout(l.positions + [l.y], Advance(l.y, lineCounts[|lineCounts| - 1]), l.pages + if next > PageBottom then 1 else 0)
  }

  /**
   * Every report is written between lines 20 and 280, one position per
   * report, and the cursor stays in that range; a new page is added each
   * time the cursor would pass 280.
   */
  lemma {:induction false} PdfLayoutSpec(lineCounts: seq<nat>)
    ensures var l := PdfLayout(lineCounts);
      && |l.positions| == |lineCounts|
      && TopLine <= l.y <= PageBottom
      && (forall i :: 0 <= i < |l.positions| ==> TopLine <= l.positions[i] <= PageBottom)
      && 1 <= l.pages <= |lineCounts| + 1
  {
    if lineCounts != [] {
      PdfLayoutSpec(lineCounts[..|lineCounts| - 1]);
    }
  }

  /** `generatePDF`'s loop over the filtered reports. */
  method GeneratePdf(lineCounts: seq<nat>) returns (positions: seq<int>, pages: nat)
    ensures PdfLayout(lineCounts) == Layout(positions, PdfLayout(lineCounts).y, pages)
  {
    var y := FirstLine;
    positions, pages := [], 1;
    var i := 0;
    while i < |lineCounts|
      invariant 0 <= i <= |lineCounts|
      invariant PdfLayout(lineCounts[..i]) == Layout(positions, y, pages)
    {
      SliceSnoc(lineCounts, i);
      positions := positions + [y];
      y := y + lineCounts[i] * 6 + 4;
      if y > PageBottom {
        pages := pages + 1;
        y := TopLine;
      }
      i := i + 1;
    }
    PrefixAll(lineCounts);
  }
}
