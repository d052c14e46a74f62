/**
 * The weight trend chart: its points in date order, the trend between the first and the
 * last point, and which of its three views it shows.
 */
module WeightTrend {
  import opened JsValues
  import opened Text
  import opened Weighings

  /** A chart point; the formatted date label is not modelled. */
  datatype Point = Point(date: string, weight: real)

  /** The entries the points are drawn from. */
  function PointEntries(points: seq<Point>): (w: seq<Weighing>)
    ensures |w| == |points|
    ensures forall i :: 0 <= i < |points| ==> w[i] == Weighing(points[i].date, points[i].weight)
  {
    seq(|points|, i requires 0 <= i < |points| => Weighing(points[i].date, points[i].weight))
  }

  /** `chartData`: one point per entry, in ascending order of date. */
  function ChartData(weightEntries: seq<Weighing>): (points: seq<Point>)
    ensures |points| == |weightEntries|
    ensures forall i, j :: 0 <= i < j < |points| ==> DateLe(points[i].date, points[j].date)
    ensures forall i :: 0 <= i < |points| ==> Weighing(points[i].date, points[i].weight) in weightEntries
    ensures multiset(PointEntries(points)) == multiset(weightEntries)
  {
    var sorted := ByDate(weightEntries);
    var points := seq(|sorted|, i requires 0 <= i < |sorted| => Point(sorted[i].date, sorted[i].weight));
    assert PointEntries(points) == sorted;
    assert forall i :: 0 <= i < |sorted| ==> Weighing(points[i].date, points[i].weight) == sorted[i];
    assert forall i :: 0 <= i < |sorted| ==> sorted[i] in multiset(weightEntries);
    points
  }

  datatype Direction = Up | Down

  /** The trend badge: direction, size of the change, and the change relative to the first weight. */
  datatype Trend = Trend(direction: Direction, value: real, percentage: Option<real>)

  function Abs(x: real): (r: real)
    ensures r >= 0.0 && (r == x || r == -x)
  {
    if x < 0.0 then -x else x
  }

  /**
   * `getTrend`: none for fewer than two points; otherwise up exactly when the last weight is
   * not below the first. The percentage is a division by the first weight, so there is no
   * number for a first weight of 0.
   */
  function GetTrend(points: seq<Point>): (t: Option<Trend>)
    ensures t.None? <==> |points| < 2
    ensures t.Some? ==> (t.value.direction == Up <==> points[|points| - 1].weight >= points[0].weight)
    ensures t.Some? ==> t.value.value == Abs(points[|points| - 1].weight - points[0].weight)
    ensures t.Some? && points[0].weight == 0.0 ==> t.value.percentage == None
    ensures t.Some? && points[0].weight != 0.0 ==>
      t.value.percentage == Some(t.value.value / points[0].weight * 100.0)
  {
    if |points| < 2 then None
    else
      var firstWeight := points[0].weight;
      var lastWeight := points[|points| - 1].weight;
      var change := lastWeight - firstWeight;
      Some(Trend(if change >= 0.0 then Up else Down, Abs(change),
                 if firstWeight == 0.0 then None else Some(Abs(change) / firstWeight * 100.0)))
  }

  /** What the card shows. */
  datatype View =
    | NoData
    | Single(weight: real)
    | Chart(points: seq<Point>, trend: Option<Trend>, latest: real, count: nat)

  function ViewOf(weightEntries: seq<Weighing>): (v: View)
    ensures weightEntries == [] <==> v == NoData
    ensures |weightEntries| == 1 ==> v == Single(weightEntries[0].weight)
    ensures |weightEntries| >= 2 ==> v.Chart? && v.count == |weightEntries| && v.trend.Some?
    ensures v.Chart? ==> v.points == ChartData(weightEntries)
    ensures v.Chart? ==> v.latest == v.points[|v.points| - 1].weight
  {
    if |weightEntries| == 0 then NoData
    else if |weightEntries| == 1 then Single(weightEntries[0].weight)
    else
      var chartData := ChartData(weightEntries);
      Chart(chartData, GetTrend(chartData), chartData[|chartData| - 1].weight, |chartData|)
  }

  /** The latest shown is the weight of an entry with the latest date. */
  lemma LatestIsLatestEntry(weightEntries: seq<Weighing>)
    requires |weightEntries| >= 2
    ensures var v := ViewOf(weightEntries);
      exists e :: e in weightEntries && e.weight == v.latest
        && forall w :: w in weightEntries ==> DateLe(w.date, e.date)
  {
    ByDateEnds(weightEntries);
    var sorted := ByDate(weightEntries);
    var e := sorted[|sorted| - 1];
    assert ChartData(weightEntries)[|sorted| - 1] == Point(e.date, e.weight);
  }

  /** The trend compares by date, not by the order the entries arrive in. */
  lemma TrendFollowsDates(earlier: Weighing, later: Weighing)
    requires DateLe(earlier.date, later.date) && earlier.date != later.date
    ensures var t := GetTrend(ChartData([later, earlier]));
      t.Some? && (t.value.direction == Up <==> later.weight >= earlier.weight)
  {
    var points := ChartData([later, earlier]);
    if points[0].date != earlier.date {
      assert points[0].date == later.date;
      DateLeAntisymmetric(earlier.date, later.date);
    }
  }
}
