/**
 * The dashboard's Home page: the three statistics over the scan history,
 * the safe/high-risk split, the map markers, and the zoom buttons.
 * The random jitter added to marker coordinates is not modelled.
 */
module HomePage {
  import opened Base
  import opened Json

  /** `Array.isArray(data) ? data : [data]`. */
  function AsList(data: Json): (items: seq<Json>)
    ensures data.JArr? ==> items == data.items
    ensures !data.JArr? ==> items == [data]
  {
    if data.JArr? then data.items else [data]
  }

  /** `item.score || 0` for a numeric or absent score. */
  function ScoreOf(item: Json): real {
    match Prop(item, "score")
    case Some(JNum(n)) => n
    case _ => 0.0
  }

  /** `item.cookies ? item.cookies.length : 0` for a list, a string, or a falsy value. */
  function CookieCount(item: Json): nat {
    match Prop(item, "cookies")
    case Some(JArr(xs)) => |xs|
    case Some(JStr(s)) => |s|
    case _ => 0
  }

  function SumScores(items: seq<Json>): real {
    if items == [] then 0.0 else ScoreOf(items[0]) + SumScores(items[1..])
  }

  function SumCookies(items: seq<Json>): nat {
    if items == [] then 0 else CookieCount(items[0]) + SumCookies(items[1..])
  }

  datatype Stats = Stats(websitesAnalyzed: nat, averageScore: int, totalCookies: nat)

  /** The statistics; `None` when an entry is `null` (reading its score throws, and the statistics are not updated). */
  function StatsOf(data: Json): Option<Stats> {
    var items := AsList(data);
    if JNull in items then None
    else
      var n := |items|;
      Some(Stats(n, Round(SumScores(items) / (if n != 0 then n else 1) as real), SumCookies(items)))
  }

  lemma {:induction false} SumScoresBounds(items: seq<Json>)
    requires forall i :: 0 <= i < |items| ==> 0.0 <= ScoreOf(items[i]) <= 100.0
    ensures 0.0 <= SumScores(items) <= 100.0 * |items| as real
  {
    if items != [] {
      assert forall i :: 0 <= i < |items| - 1 ==> items[1..][i] == items[i + 1];
      SumScoresBounds(items[1..]);
    }
  }

  /**
   * A single non-list answer counts as one site; an empty history averages
   * to 0; scores within [0, 100] average within [0, 100].
   */
  lemma StatsSpec(data: Json)
    requires StatsOf(data).Some?
    ensures var s := StatsOf(data).value;
      && (!data.JArr? ==> s.websitesAnalyzed == 1)
      && (data.JArr? ==> s.websitesAnalyzed == |data.items|)
      && (data == JArr([]) ==> s.averageScore == 0 && s.totalCookies == 0)
      && ((forall i :: 0 <= i < |AsList(data)| ==> 0.0 <= ScoreOf(AsList(data)[i]) <= 100.0) ==> 0 <= s.averageScore <= 100)
  {
    var items := AsList(data);
    if forall i :: 0 <= i < |items| ==> 0.0 <= ScoreOf(items[i]) <= 100.0 {
      SumScoresBounds(items);
      var d := (if |items| != 0 then |items| else 1) as real;
      DivBound(SumScores(items), d);
    }
  }

  /** Each entry contributes its list's length, a missing list nothing: the total is additive. */
  lemma {:induction false} SumCookiesAppend(xs: seq<Json>, ys: seq<Json>)
    ensures SumCookies(xs + ys) == SumCookies(xs) + SumCookies(ys)
  {
    if xs != [] {
      assert (xs + ys)[1..] == xs[1..] + ys;
      SumCookiesAppend(xs[1..], ys);
    } else {
      assert xs + ys == ys;
    }
  }

  // ------------------------------------------------------------------
  // The map statistics

  predicate IsSafe(item: Json) {
    Prop(item, "classification") == Some(JStr("Safe"))
  }

  function CountSafe(items: seq<Json>): (n: nat)
    ensures n <= |items|
  {
    if items == [] then 0 else (if IsSafe(items[0]) then 1 else 0) + CountSafe(items[1..])
  }

  function CountRisky(items: seq<Json>): (n: nat)
    ensures n <= |items|
  {
    if items == [] then 0 else (if !IsSafe(items[0]) then 1 else 0) + CountRisky(items[1..])
  }

  /** The "High-Risk" and "Safe" counts partition the history. */
  lemma {:induction false} CountsPartition(items: seq<Json>)
    ensures CountSafe(items) + CountRisky(items) == |items|
  {
    if items != [] {
      CountsPartition(items[1..]);
    }
  }

  // ------------------------------------------------------------------
  // Markers

  datatype Marker = Marker(name: Json, latitude: Json, longitude: Json, risk: string,
                           url: Json, classification: Json, score: Json)

  /** The entry has a truthy `geo` with a truthy latitude and longitude (so a 0 coordinate does not count). */
  predicate Located(item: Json) {
    && Prop(item, "geo").Some? && JsTruthy(Prop(item, "geo").value)
    && Prop(Prop(item, "geo").value, "latitude").Some? && JsTruthy(Prop(Prop(item, "geo").value, "latitude").value)
    && Prop(Prop(item, "geo").value, "longitude").Some? && JsTruthy(Prop(Prop(item, "geo").value, "longitude").value)
  }

  function MarkerOf(item: Json): Option<Marker> {
    if !Located(item) then None
    else
      var geo := Prop(item, "geo").value;
      Some(Marker(
        OrElse(Prop(geo, "city"), OrElse(Prop(geo, "country"), JStr("Unknown"))),
        Prop(geo, "latitude").value, Prop(geo, "longitude").value,
        if IsSafe(item) then "Low" else "High",
        OrElse(Prop(item, "url"), JStr("Unknown")),
        OrElse(Prop(item, "classification"), JStr("Unknown")),
        if Prop(item, "score").Some? then Prop(item, "score").value else JStr("N/A")))
  }

  /** `items.map(markerOf).filter(Boolean)`. */
  function Markers(items: seq<Json>): (ms: seq<Marker>)
    ensures |ms| <= |items|
  {
    if items == [] then []
    else
      var m := MarkerOf(items[0]);
      (if m.Some? then [m.value] else []) + Markers(items[1..])
  }

  function CountLocated(items: seq<Json>): nat {
    if items == [] then 0 else (if Located(items[0]) then 1 else 0) + CountLocated(items[1..])
  }

  /**
   * There is one marker per located entry, in order; every marker comes
   * from a located entry, and its risk is "Low" exactly for a "Safe"
   * classification.
   */
  lemma {:induction false} MarkersSpec(items: seq<Json>)
    ensures |Markers(items)| == CountLocated(items)
    ensures forall m :: m in Markers(items) ==>
      exists i :: (0 <= i < |items| && Located(items[i]) && MarkerOf(items[i]) == Some(m)
        && (m.risk == "Low" <==> IsSafe(items[i])))
  {
    if items != [] {
      MarkersSpec(items[1..]);
      var rest := Markers(items[1..]);
      forall m | m in Markers(items)
        ensures exists i :: (0 <= i < |items| && Located(items[i]) && MarkerOf(items[i]) == Some(m)
          && (m.risk == "Low" <==> IsSafe(items[i])))
      {
        if m !in rest {
          assert Located(items[0]) && MarkerOf(items[0]) == Some(m);
        } else {
          var j :| 0 <= j < |items[1..]| && Located(items[1..][j]) && MarkerOf(items[1..][j]) == Some(m)
            && (m.risk == "Low" <==> IsSafe(items[1..][j]));
          assert items[1..][j] == items[j + 1];
        }
      }
    }
  }

  /** The markers keep the order of the history: those of a concatenation are the markers of each part in turn. */
  lemma {:induction false} MarkersAppend(xs: seq<Json>, ys: seq<Json>)
    ensures Markers(xs + ys) == Markers(xs) + Markers(ys)
  {
    if xs == [] {
      assert xs + ys == ys;
    } else {
      var zs := xs + ys;
      assert zs[0] == xs[0] && zs[1..] == xs[1..] + ys;
      var m := MarkerOf(xs[0]);
      var head := if m.Some? then [m.value] else [];
      assert Markers(xs) == head + Markers(xs[1..]);
      assert Markers(zs) == head + Markers(xs[1..] + ys);
      MarkersAppend(xs[1..], ys);
      AppendAssoc(head, Markers(xs[1..]), Markers(ys));
    }
  }

  /** One entry gives its own marker or none. */
  lemma MarkersSingle(x: Json)
    ensures Markers([x]) == if MarkerOf(x).Some? then [MarkerOf(x).value] else []
  {
    assert [x][1..] == [];
  }

  /** An entry whose latitude is 0 gets no marker. */
  lemma ZeroLatitudeDropped(item: Json)
    requires Prop(item, "geo").Some? && Prop(Prop(item, "geo").value, "latitude") == Some(JNum(0.0))
    ensures MarkerOf(item).None?
  {
  }

  // ------------------------------------------------------------------
  // Zoom

  const MinZoom: real := 1.0
  const MaxZoom: real := 4.0
  const ZoomStep: real := 0.2

  function ZoomIn(z: real): real {
    if z + ZoomStep < MaxZoom then z + ZoomStep else MaxZoom
  }

  function ZoomOut(z: real): real {
    if z - ZoomStep > MinZoom then z - ZoomStep else MinZoom
  }

  /** A click on the zoom buttons. */
  datatype ZoomClick = In | Out

  function Zoom(z: real, clicks: seq<ZoomClick>): real
    decreases |clicks|
  {
    if clicks == [] then z
    else Zoom(if clicks[0] == In then ZoomIn(z) else ZoomOut(z), clicks[1..])
  }

  /**
   * From the initial zoom of 1, any sequence of clicks keeps the zoom
   * within [1, 4]; zooming in never zooms out and the reverse.
   */
  lemma {:induction false} ZoomStaysInRange(z: real, clicks: seq<ZoomClick>)
    requires MinZoom <= z <= MaxZoom
    ensures MinZoom <= Zoom(z, clicks) <= MaxZoom
    ensures MinZoom <= Zoom(1.0, clicks) <= MaxZoom
    decreases |clicks|
  {
    if clicks != [] {
      ZoomStaysInRange(if clicks[0] == In then ZoomIn(z) else ZoomOut(z), clicks[1..]);
      ZoomStaysInRange(if clicks[0] == In then ZoomIn(1.0) else ZoomOut(1.0), clicks[1..]);
    }
  }

  lemma ZoomMonotone(z: real)
    requires MinZoom <= z <= MaxZoom
    ensures z <= ZoomIn(z) && ZoomOut(z) <= z
    ensures ZoomIn(MaxZoom) == MaxZoom && ZoomOut(MinZoom) == MinZoom
  {
  }
}
