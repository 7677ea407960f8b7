/** The data behind the "Forecast vs Actual" chart
    (components/dashboard/ForecastChart.tsx): each forecast point is paired
    with the actual amount recorded for its month. Number parsing and date
    labelling are parameters. */
module ForecastChart {
  import opened AwsTypes

  /** One bar pair of the chart. */
  datatype ChartPoint = ChartPoint(month: string, actual: real, forecast: real)

  /** `timePeriod.substring(0, 7)`: the first seven characters, or the whole
      string when it is shorter. */
  function MonthKey(timePeriod: string): (k: string)
    ensures |k| <= 7 && k <= timePeriod
    ensures |timePeriod| >= 7 ==> |k| == 7
  {
    if |timePeriod| <= 7 then timePeriod else timePeriod[..7]
  }

  /** The key an actual entry is stored under: its month as it is (the chart
      as written), or the month's first seven characters (the corrected
      chart). */
  function EntryKey(month: string, byMonth: bool): (k: string)
    ensures !byMonth ==> k == month
    ensures byMonth ==> k == MonthKey(month)
  {
    if byMonth then MonthKey(month) else month
  }

  /** `new Map(actual.map(a => [a.month, a.amount]))`: entries are set in
      order, so a later month overwrites an earlier one. */
  function ActualMap(actual: seq<MonthlyCost>, byMonth: bool): map<string, real> {
    if actual == [] then map[]
    else
      var last := actual[|actual| - 1];
      ActualMap(actual[..|actual| - 1], byMonth)[EntryKey(last.month, byMonth) := last.amount]
  }

  /** `actualMap.get(month) || 0`. */
  function Lookup(m: map<string, real>, key: string): real {
    if key in m then m[key] else 0.0
  }

  /** One point per forecast entry, in order, with the actual amount looked
      up under the entry's seven-character key. `parse` stands for
      `parseFloat` and `monthLabel` for the short month-and-year label of the
      key's first day. */
  function Points(data: ForecastResponse, parse: string -> real, monthLabel: string -> string, byMonth: bool)
    : (r: seq<ChartPoint>)
    ensures |r| == |data.forecast|
    ensures forall i :: 0 <= i < |r| ==>
      && r[i].month == monthLabel(MonthKey(data.forecast[i].timePeriod))
      && r[i].forecast == parse(data.forecast[i].meanValue)
  {
    var actualMap := ActualMap(data.actual, byMonth);
    seq(|data.forecast|, i requires 0 <= i < |data.forecast| =>
      var key := MonthKey(data.forecast[i].timePeriod);
      ChartPoint(monthLabel(key), Lookup(actualMap, key), parse(data.forecast[i].meanValue)))
  }

  /** The `chartData` memo as written: actual entries are keyed by their
      whole month. */
  function ChartData(data: ForecastResponse, parse: string -> real, monthLabel: string -> string): seq<ChartPoint> {
    Points(data, parse, monthLabel, false)
  }

  /** The chart as evidently intended: actual entries are keyed by the first
      seven characters of their month, like the forecast entries, so each
      point shows the last actual entry of its own year and month, or 0. */
  function CorrectedChartData(data: ForecastResponse, parse: string -> real, monthLabel: string -> string)
    : (r: seq<ChartPoint>)
    ensures |r| == |data.forecast|
    ensures forall i :: 0 <= i < |r| ==>
      var key := MonthKey(data.forecast[i].timePeriod);
      var a := data.actual;
      && ((forall j :: 0 <= j < |a| ==> MonthKey(a[j].month) != key) ==> r[i].actual == 0.0)
      && (forall j :: (0 <= j < |a| && MonthKey(a[j].month) == key &&
            (forall k :: j < k < |a| ==> MonthKey(a[k].month) != key)) ==> r[i].actual == a[j].amount)
  {
    PointsActual(data, parse, monthLabel, true);
    Points(data, parse, monthLabel, true)
  }

  /** The map holds a key exactly when some entry is stored under it, and its
      value is the amount of the last such entry. */
  lemma {:induction false} ActualMapLastWins(actual: seq<MonthlyCost>, byMonth: bool, key: string)
    ensures key in ActualMap(actual, byMonth) <==>
      exists j :: 0 <= j < |actual| && EntryKey(actual[j].month, byMonth) == key
    ensures forall j :: (0 <= j < |actual| && EntryKey(actual[j].month, byMonth) == key &&
      (forall k :: j < k < |actual| ==> EntryKey(actual[k].month, byMonth) != key)) ==>
        ActualMap(actual, byMonth)[key] == actual[j].amount
  {
    if actual != [] {
      var n := |actual| - 1;
      var front := actual[..n];
      ActualMapLastWins(front, byMonth, key);
      assert forall j :: 0 <= j < n ==> front[j] == actual[j];
      if EntryKey(actual[n].month, byMonth) != key {
        if exists j :: 0 <= j < |actual| && EntryKey(actual[j].month, byMonth) == key {
          var j :| 0 <= j < |actual| && EntryKey(actual[j].month, byMonth) == key;
          assert EntryKey(front[j].month, byMonth) == key;
        }
      }
    }
  }

  /** Each point's actual amount is that of the last actual entry stored under
      the point's key, or 0 when there is none. As written, an entry is
      stored under its whole month, so its month must equal the key exactly. */
  lemma PointsActual(data: ForecastResponse, parse: string -> real, monthLabel: string -> string, byMonth: bool)
    ensures var r := Points(data, parse, monthLabel, byMonth);
      forall i :: 0 <= i < |r| ==>
      var key := MonthKey(data.forecast[i].timePeriod);
      var a := data.actual;
      && ((forall j :: 0 <= j < |a| ==> EntryKey(a[j].month, byMonth) != key) ==> r[i].actual == 0.0)
      && (forall j :: (0 <= j < |a| && EntryKey(a[j].month, byMonth) == key &&
            (forall k :: j < k < |a| ==> EntryKey(a[k].month, byMonth) != key)) ==> r[i].actual == a[j].amount)
  {
    var r := Points(data, parse, monthLabel, byMonth);
    forall i | 0 <= i < |r| ensures
      var key := MonthKey(data.forecast[i].timePeriod);
      var a := data.actual;
      && ((forall j :: 0 <= j < |a| ==> EntryKey(a[j].month, byMonth) != key) ==> r[i].actual == 0.0)
      && (forall j :: (0 <= j < |a| && EntryKey(a[j].month, byMonth) == key &&
            (forall k :: j < k < |a| ==> EntryKey(a[k].month, byMonth) != key)) ==> r[i].actual == a[j].amount)
    {
      ActualMapLastWins(data.actual, byMonth, MonthKey(data.forecast[i].timePeriod));
    }
  }

  /** As written, actual entries whose month is longer than seven characters
      (a full `YYYY-MM-DD` date, say) never match a key, so adding one changes
      no point. */
  lemma LongActualMonthIgnored(data: ForecastResponse, e: MonthlyCost, parse: string -> real, monthLabel: string -> string)
    requires |e.month| > 7
    ensures ChartData(data.(actual := data.actual + [e]), parse, monthLabel) == ChartData(data, parse, monthLabel)
  {
    var a := data.actual + [e];
    assert a[..|a| - 1] == data.actual;
    var before := ChartData(data, parse, monthLabel);
    var after := ChartData(data.(actual := a), parse, monthLabel);
    forall i | 0 <= i < |before| ensures after[i] == before[i] {
      var key := MonthKey(data.forecast[i].timePeriod);
      assert key != e.month;
    }
  }

  /** As written, when every actual month is a full date, every point's actual
      amount is 0. */
  lemma FullDateActualsNeverMatch(data: ForecastResponse, parse: string -> real, monthLabel: string -> string)
    requires forall j :: 0 <= j < |data.actual| ==> |data.actual[j].month| > 7
    ensures forall i :: 0 <= i < |data.forecast| ==> ChartData(data, parse, monthLabel)[i].actual == 0.0
  {
    PointsActual(data, parse, monthLabel, false);
  }

  /** The forecast and the actual series both carry the provider's period
      start dates: a forecast for 2024-02-01 and an actual of 200 for
      2024-02-01 give an actual bar of 0 as written, and of 200 corrected. */
  lemma SameStartDateExample(parse: string -> real, monthLabel: string -> string)
    ensures var data := ForecastResponse([ForecastData("2024-02-01", "150.00")], [MonthlyCost("2024-02-01", 200.0, "USD")]);
      && ChartData(data, parse, monthLabel)[0].actual == 0.0
      && CorrectedChartData(data, parse, monthLabel)[0].actual == 200.0
  {
    var data := ForecastResponse([ForecastData("2024-02-01", "150.00")], [MonthlyCost("2024-02-01", 200.0, "USD")]);
    assert MonthKey("2024-02-01") == "2024-02";
    PointsActual(data, parse, monthLabel, false);
  }

  lemma {:induction false} ActualMapOnMonthKeys(actual: seq<MonthlyCost>)
    requires forall j :: 0 <= j < |actual| ==> |actual[j].month| <= 7
    ensures ActualMap(actual, true) == ActualMap(actual, false)
  {
    if actual != [] {
      ActualMapOnMonthKeys(actual[..|actual| - 1]);
    }
  }

  /** When the actual months are already `YYYY-MM` keys, the corrected chart
      is the chart as written. */
  lemma CorrectedAgreesOnMonthKeys(data: ForecastResponse, parse: string -> real, monthLabel: string -> string)
    requires forall j :: 0 <= j < |data.actual| ==> |data.actual[j].month| <= 7
    ensures CorrectedChartData(data, parse, monthLabel) == ChartData(data, parse, monthLabel)
  {
    ActualMapOnMonthKeys(data.actual);
  }

  /** Each forecast value depends on its own entry's `meanValue` only. */
  lemma ForecastValueIsLocal(d1: ForecastResponse, d2: ForecastResponse, parse: string -> real, monthLabel: string -> string, i: int)
    requires 0 <= i < |d1.forecast| && 0 <= i < |d2.forecast|
    requires d1.forecast[i].meanValue == d2.forecast[i].meanValue
    ensures ChartData(d1, parse, monthLabel)[i].forecast == ChartData(d2, parse, monthLabel)[i].forecast
  {
  }
}
