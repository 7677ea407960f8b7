/** The `POST /api/export` handler (app/api/export/route.ts): turns the
    dashboard's cost and recommendation data into CSV text, one row per
    monthly cost, per service and per recommendation, after a header.
    `Number.prototype.toFixed(2)` is the parameter `fixed2`. */
module ExportRoute {
  import opened Wrappers
  import opened AwsTypes

  const Header := "Type,Date,Service,Cost,Description"
  const MissingDataMessage := "Cost data and recommendations are required"

  /** The request body: not valid JSON (with the parser's error message), or
      parsed, with each of the two fields present or missing. */
  datatype ExportRequest =
    | Unparsable(parseError: string)
    | ExportBody(costData: Option<CostExplorerResponse>, recommendationsData: Option<RecommendationsResponse>)

  datatype ExportResponse = Csv(text: string) | JsonError(status: int, error: string)

  function MonthlyRow(c: MonthlyCost, fixed2: real -> string): string {
    "Cost," + c.month + ",Total," + fixed2(c.amount) + ",Monthly cost"
  }

  /** `costData.monthlyCosts[0]?.month || ""`. */
  function FirstMonth(cost: CostExplorerResponse): string {
    if |cost.monthlyCosts| > 0 then cost.monthlyCosts[0].month else ""
  }

  function ServiceRow(firstMonth: string, s: ServiceCost, fixed2: real -> string): string {
    "Service," + firstMonth + "," + s.service + "," + fixed2(s.amount) + "," + fixed2(s.percentage) + "% of total"
  }

  function RecommendationRow(r: Recommendation, fixed2: real -> string): string {
    "Recommendation,," + r.service + "," + fixed2(r.potentialSavings) + "," + r.title + " - " + r.description
  }

  function MonthlySection(cost: CostExplorerResponse, fixed2: real -> string): (rows: seq<string>)
    ensures |rows| == |cost.monthlyCosts|
  {
    var m := cost.monthlyCosts;
    seq(|m|, i requires 0 <= i < |m| => MonthlyRow(m[i], fixed2))
  }

  function ServiceSection(cost: CostExplorerResponse, fixed2: real -> string): (rows: seq<string>)
    ensures |rows| == |cost.serviceBreakdown|
  {
    var s := cost.serviceBreakdown;
    seq(|s|, i requires 0 <= i < |s| => ServiceRow(FirstMonth(cost), s[i], fixed2))
  }

  function RecommendationSection(recs: RecommendationsResponse, fixed2: real -> string): (rows: seq<string>)
    ensures |rows| == |recs.recommendations|
  {
    var r := recs.recommendations;
    seq(|r|, i requires 0 <= i < |r| => RecommendationRow(r[i], fixed2))
  }

  /** The rows, in order: the header, then the monthly, service and
      recommendation sections. */
  function CsvRows(cost: CostExplorerResponse, recs: RecommendationsResponse, fixed2: real -> string): seq<string> {
    [Header] + MonthlySection(cost, fixed2) + ServiceSection(cost, fixed2) + RecommendationSection(recs, fixed2)
  }

  /** The layout of the rows: one header, then one row per monthly cost, per
      service and per recommendation, each section in its input order. */
  lemma CsvRowsLayout(cost: CostExplorerResponse, recs: RecommendationsResponse, fixed2: real -> string)
    ensures var rows := CsvRows(cost, recs, fixed2);
      var m, s, r := cost.monthlyCosts, cost.serviceBreakdown, recs.recommendations;
      && |rows| == 1 + |m| + |s| + |r|
      && rows[0] == Header
      && (forall i :: 0 <= i < |m| ==> rows[1 + i] == MonthlyRow(m[i], fixed2))
      && (forall i :: 0 <= i < |s| ==> rows[1 + |m| + i] == ServiceRow(FirstMonth(cost), s[i], fixed2))
      && (forall i :: 0 <= i < |r| ==> rows[1 + |m| + |s| + i] == RecommendationRow(r[i], fixed2))
  {
  }

  /** The three `forEach` loops pushing onto `csvRows`. */
  method BuildCsvRows(cost: CostExplorerResponse, recs: RecommendationsResponse, fixed2: real -> string)
    returns (rows: seq<string>)
    ensures rows == CsvRows(cost, recs, fixed2)
  {
    var m, s, r := cost.monthlyCosts, cost.serviceBreakdown, recs.recommendations;
    ghost var monthly, services, recommended :=
      MonthlySection(cost, fixed2), ServiceSection(cost, fixed2), RecommendationSection(recs, fixed2);
    rows := [Header];
    var i := 0;
    while i < |m|
      invariant 0 <= i <= |m|
      invariant rows == [Header] + monthly[..i]
    {
      rows := rows + [MonthlyRow(m[i], fixed2)];
      assert monthly[..i + 1] == monthly[..i] + [monthly[i]];
      i := i + 1;
    }
    assert monthly[..i] == monthly;
    var firstMonth := FirstMonth(cost);
    i := 0;
    while i < |s|
      invariant 0 <= i <= |s|
      invariant rows == [Header] + monthly + services[..i]
    {
      rows := rows + [ServiceRow(firstMonth, s[i], fixed2)];
      assert services[..i + 1] == services[..i] + [services[i]];
      i := i + 1;
    }
    assert services[..i] == services;
    i := 0;
    while i < |r|
      invariant 0 <= i <= |r|
      invariant rows == [Header] + monthly + services + recommended[..i]
    {
      rows := rows + [RecommendationRow(r[i], fixed2)];
      assert recommended[..i + 1] == recommended[..i] + [recommended[i]];
      i := i + 1;
    }
    assert recommended[..i] == recommended;
  }

  /** `rows.join("\n")`: a newline between rows and none after the last. */
  function JoinLines(rows: seq<string>): string {
    if rows == [] then ""
    else if |rows| == 1 then rows[0]
    else JoinLines(rows[..|rows| - 1]) + "\n" + rows[|rows| - 1]
  }

  function CountNewlines(s: string): nat {
    if s == [] then 0 else CountNewlines(s[..|s| - 1]) + (if s[|s| - 1] == '\n' then 1 else 0)
  }

  lemma {:induction false} CountNewlinesAppend(a: string, b: string)
    ensures CountNewlines(a + b) == CountNewlines(a) + CountNewlines(b)
    decreases |b|
  {
    if b == [] {
      assert a + b == a;
    } else {
      assert (a + b)[..|a + b| - 1] == a + b[..|b| - 1];
      CountNewlinesAppend(a, b[..|b| - 1]);
    }
  }

  /** Rows are not quoted: when no row holds a newline the text has exactly one
      line per row, and every newline inside a field adds a line. */
  lemma {:induction false} JoinLinesCount(rows: seq<string>)
    requires |rows| >= 1
    ensures CountNewlines(JoinLines(rows)) == |rows| - 1 + CountNewlinesIn(rows)
  {
    if |rows| > 1 {
      var front := rows[..|rows| - 1];
      JoinLinesCount(front);
      CountNewlinesAppend(JoinLines(front) + "\n", rows[|rows| - 1]);
      CountNewlinesAppend(JoinLines(front), "\n");
      assert CountNewlines("\n") == 1 by {
        assert "\n"[..0] == [];
      }
    } else {
      assert rows[..0] == [];
    }
  }

  function CountNewlinesIn(rows: seq<string>): nat {
    if rows == [] then 0 else CountNewlinesIn(rows[..|rows| - 1]) + CountNewlines(rows[|rows| - 1])
  }

  /** The handler: an unreadable body is a 500 with the parser's message, a
      missing field a 400, anything else the CSV text. */
  method Post(req: ExportRequest, fixed2: real -> string) returns (resp: ExportResponse)
    ensures req.Unparsable? ==> resp == JsonError(500, req.parseError)
    ensures req.ExportBody? && (req.costData.None? || req.recommendationsData.None?) ==>
      resp == JsonError(400, MissingDataMessage)
    ensures resp.Csv? <==> req.ExportBody? && req.costData.Some? && req.recommendationsData.Some?
    ensures resp.Csv? ==> resp.text == JoinLines(CsvRows(req.costData.value, req.recommendationsData.value, fixed2))
  {
    match req {
      case Unparsable(message) =>
        resp := JsonError(500, message);
      case ExportBody(costData, recommendationsData) =>
        if costData.None? || recommendationsData.None? {
          return JsonError(400, MissingDataMessage);
        }
        var rows := BuildCsvRows(costData.value, recommendationsData.value, fixed2);
        resp := Csv(JoinLines(rows));
    }
  }

  /** The text starts with the header line. */
  lemma {:induction false} CsvStartsWithHeader(rows: seq<string>)
    requires |rows| >= 1 && rows[0] == Header
    ensures Header <= JoinLines(rows)
  {
    if |rows| > 1 {
      var front := rows[..|rows| - 1];
      CsvStartsWithHeader(front);
      assert JoinLines(rows) == JoinLines(front) + ("\n" + rows[|rows| - 1]);
    }
  }
}
