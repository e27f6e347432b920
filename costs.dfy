/**
 * The three cost endpoints: the month-to-date total, the breakdown by resource type, and the
 * trend over a period. Each sends one usage query to the Cost Management API at the scope
 * `subscriptions/{id}` and reshapes the rows it answers with.
 */
module Costs {
  import opened Wrappers
  import opened Http
  import opened Sorting

  const MissingSubscription := "Missing required parameter: subscriptionId"
  const DefaultCurrency := "USD"
  const DefaultPeriod := "Last30Days"
  const DefaultTimeframe := "MonthToDate"
  const CostsFailure := "Failed to get cost data: "
  const BreakdownFailure := "Failed to get cost breakdown: "
  const TrendFailure := "Failed to get cost trend: "

  /** A cell of a result row; `Absent` is what indexing past the end of a row reads. */
  datatype Cell = Num(n: real) | Txt(s: string) | Absent

  /** A result column; `currency` is "" when the column has none. */
  datatype Column = Column(name: string, columnType: string, currency: string)

  /** A usage query's answer: the rows and `properties.columns`, each None when absent. */
  datatype QueryResult = QueryResult(rows: Option<seq<seq<Cell>>>, columns: Option<seq<Column>>)

  /** The fields of a usage query that vary between the endpoints (its type is always "Usage", its aggregation the sum of "Cost"). */
  datatype UsageQuery = UsageQuery(
    timeframe: string,
    timePeriod: Option<(string, string)>,
    granularity: string,
    byResourceType: bool)

  /** `query.usage(scope, query)`: an absent key means the call rejects. */
  datatype CostClient = CostClient(usage: map<(string, UsageQuery), QueryResult>)
  {
    function Usage(scope: string, query: UsageQuery): Option<QueryResult>
    {
      if (scope, query) in usage then Some(usage[(scope, query)]) else None
    }
  }

  /** The query scope: no leading `/`, unlike the scopes of the permission endpoints. */
  function ScopeOf(subscriptionId: string): (r: string)
    ensures |r| == 14 + |subscriptionId| && r[..14] == "subscriptions/" && r[14..] == subscriptionId
  {
    "subscriptions/" + subscriptionId
  }

  /** `row[i]`. */
  function CellAt(row: seq<Cell>, i: nat): (r: Cell)
  {
    if i < |row| then row[i] else Absent
  }

  /** The rows, `[]` when absent. */
  function RowsOf(result: QueryResult): (r: seq<seq<Cell>>)
  {
    result.rows.GetOr([])
  }

  // ---------------------------------------------------------------------------
  // The currency rule shared by the three endpoints
  // ---------------------------------------------------------------------------

  /** `columns.findIndex(f)` / `columns.find(f)`: the first column that satisfies `f`. */
  function FirstWhere(columns: seq<Column>, f: Column -> bool): (r: Option<nat>)
    ensures r.Some? ==> r.value < |columns| && f(columns[r.value])
    ensures r.Some? ==> forall j :: 0 <= j < r.value ==> !f(columns[j])
    ensures r.None? ==> forall j :: 0 <= j < |columns| ==> !f(columns[j])
    decreases |columns|
  {
    if columns == [] then None
    else if f(columns[0]) then Some(0)
    else
      var rest := FirstWhere(columns[1..], f);
      assert forall j :: 1 <= j < |columns| ==> columns[j] == columns[1..][j - 1];
      if rest.None? then None else Some(rest.value + 1)
  }

  predicate IsCostColumn(c: Column)
  {
    c.name == "Cost"
  }

  /** The currency: that of the first column named "Cost" when it is a "Number" column with a currency, else "USD". */
  function Currency(columns: Option<seq<Column>>): (r: string)
    ensures r != ""
  {
    if columns.None? then DefaultCurrency
    else
      match FirstWhere(columns.value, IsCostColumn)
      case None => DefaultCurrency
      case Some(i) =>
        var c := columns.value[i];
        if c.columnType == "Number" && c.currency != "" then c.currency else DefaultCurrency
  }

  /** Only the first "Cost" column decides the currency; later ones are never looked at. */
  lemma CurrencyOfFirstCostColumn(columns: seq<Column>, i: nat)
    requires i < |columns| && columns[i].name == "Cost"
    requires forall j :: 0 <= j < i ==> columns[j].name != "Cost"
    ensures columns[i].columnType == "Number" && columns[i].currency != "" ==> Currency(Some(columns)) == columns[i].currency
    ensures columns[i].columnType != "Number" || columns[i].currency == "" ==> Currency(Some(columns)) == DefaultCurrency
  {
    assert IsCostColumn(columns[i]);
  }

  /** Without a "Cost" column, or without columns at all, the currency is "USD". */
  lemma CurrencyWithoutCostColumn(columns: Option<seq<Column>>)
    requires columns.Some? ==> forall j :: 0 <= j < |columns.value| ==> columns.value[j].name != "Cost"
    ensures Currency(columns) == DefaultCurrency
  {
  }

  // ---------------------------------------------------------------------------
  // get_costs
  // ---------------------------------------------------------------------------

  datatype CostsBody = CostsBody(totalCost: Cell, currency: string, timeframe: string, subscriptionId: string)

  /** The total: the first cell of the first row, 0 without rows. */
  function TotalOf(result: QueryResult): (r: Cell)
    ensures |RowsOf(result)| == 0 ==> r == Num(0.0)
    ensures |RowsOf(result)| > 0 ==> r == CellAt(RowsOf(result)[0], 0)
  {
    var rows := RowsOf(result);
    if |rows| > 0 then CellAt(rows[0], 0) else Num(0.0)
  }

  /** The `get_costs` handler; "" stands for an absent `subscriptionId`. */
  method HandleCosts(client: CostClient, subscriptionId: string) returns (res: Response<CostsBody>)
    ensures subscriptionId == "" ==> res == BadRequest(MissingSubscription)
    ensures subscriptionId != "" ==>
              match client.Usage(ScopeOf(subscriptionId), UsageQuery(DefaultTimeframe, None, "None", false))
              case None => res == ServerError(CostsFailure, UpstreamFailure)
              case Some(result) =>
                res == Success(CostsBody(TotalOf(result), Currency(result.columns), DefaultTimeframe, subscriptionId))
  {
    if subscriptionId == "" {
      return BadRequest(MissingSubscription);
    }
    var result := client.Usage(ScopeOf(subscriptionId), UsageQuery(DefaultTimeframe, None, "None", false));
    if result.None? {
      return ServerError(CostsFailure, UpstreamFailure);
    }
    var totalCost := TotalOf(result.value);
    var currency := Currency(result.value.columns);
    res := Success(CostsBody(totalCost, currency, DefaultTimeframe, subscriptionId));
  }

  // ---------------------------------------------------------------------------
  // get_cost_breakdown
  // ---------------------------------------------------------------------------

  /** One resource type's share: `row[1]`, `row[0]`, and the percentage added afterwards. */
  datatype BreakdownItem = BreakdownItem(resourceType: Cell, cost: real, percentage: real)

  datatype BreakdownBody = BreakdownBody(
    costBreakdown: seq<BreakdownItem>,
    totalCost: real,
    currency: string,
    timeframe: string,
    subscriptionId: string)

  /** `row[0]` as an amount. */
  function CostOf(row: seq<Cell>): (r: real)
  {
    match CellAt(row, 0)
    case Num(n) => n
    case _ => 0.0
  }

  /** The items the first loop pushes, one per row in row order, before any percentage is set. */
  function Pushed(rows: seq<seq<Cell>>): (r: seq<BreakdownItem>)
    ensures |r| == |rows|
    ensures forall k :: 0 <= k < |rows| ==> r[k] == BreakdownItem(CellAt(rows[k], 1), CostOf(rows[k]), 0.0)
    decreases |rows|
  {
    if rows == [] then []
    else
      var last := rows[|rows| - 1];
      Pushed(rows[..|rows| - 1]) + [BreakdownItem(CellAt(last, 1), CostOf(last), 0.0)]
  }

  /** The sum of the items' costs. */
  function SumCost(items: seq<BreakdownItem>): (r: real)
    decreases |items|
  {
    if items == [] then 0.0 else SumCost(items[..|items| - 1]) + items[|items| - 1].cost
  }

  /** The sum of the items' percentages. */
  function SumPercent(items: seq<BreakdownItem>): (r: real)
    decreases |items|
  {
    if items == [] then 0.0 else SumPercent(items[..|items| - 1]) + items[|items| - 1].percentage
  }

  /** `totalCost > 0 ? (cost / totalCost) * 100 : 0`. */
  function Percentage(cost: real, total: real): (r: real)
    ensures total > 0.0 ==> r * total == cost * 100.0
    ensures total <= 0.0 ==> r == 0.0
  {
    if total > 0.0 then cost / total * 100.0 else 0.0
  }

  /** Every item with its percentage of `total` set. */
  function WithPercentages(items: seq<BreakdownItem>, total: real): (r: seq<BreakdownItem>)
    ensures |r| == |items|
    ensures forall k :: 0 <= k < |items| ==>
              r[k].resourceType == items[k].resourceType && r[k].cost == items[k].cost &&
              r[k].percentage == Percentage(items[k].cost, total)
  {
    seq(|items|, k requires 0 <= k < |items| => items[k].(percentage := Percentage(items[k].cost, total)))
  }

  /** The first loop: the items pushed, one per row, and the running total of their costs. */
  method PushRows(rows: seq<seq<Cell>>) returns (pushed: seq<BreakdownItem>, total: real)
    ensures pushed == Pushed(rows)
    ensures total == SumCost(pushed)
  {
    pushed := [];
    total := 0.0;
    var i := 0;
    while i < |rows|
      invariant 0 <= i <= |rows|
      invariant pushed == Pushed(rows[..i])
      invariant total == SumCost(pushed)
    {
      var cost := CostOf(rows[i]);
      total := total + cost;
      assert rows[..i + 1][..i] == rows[..i];
      pushed := pushed + [BreakdownItem(CellAt(rows[i], 1), cost, 0.0)];
      assert pushed[..|pushed| - 1] == Pushed(rows[..i]);
      i := i + 1;
    }
    assert rows[..i] == rows;
  }

  /** The second loop: each item's percentage set in place. */
  method SetPercentages(a: array<BreakdownItem>, total: real)
    modifies a
    ensures a[..] == WithPercentages(old(a[..]), total)
  {
    ghost var items := a[..];
    var k := 0;
    while k < a.Length
      invariant 0 <= k <= a.Length
      invariant a[..k] == WithPercentages(items, total)[..k]
      invariant a[k..] == items[k..]
    {
      assert a[k] == items[k];
      a[k] := a[k].(percentage := Percentage(a[k].cost, total));
      k := k + 1;
    }
    assert a[..] == a[..k];
  }

  /**
   * `get_cost_breakdown` from the rows on: the total of the row costs, and the items with
   * their percentages, reordered by cost from the largest down.
   */
  method CostBreakdown(rows: seq<seq<Cell>>) returns (items: seq<BreakdownItem>, total: real)
    ensures total == SumCost(Pushed(rows))
    ensures SortedBy(items, (it: BreakdownItem) => -it.cost)
    ensures multiset(items) == multiset(WithPercentages(Pushed(rows), total))
  {
    var pushed;
    pushed, total := PushRows(rows);
    var a := new BreakdownItem[|pushed|](k requires 0 <= k < |pushed| => pushed[k]);
    assert a[..] == pushed;
    SetPercentages(a, total);
    SortBy(a, (it: BreakdownItem) => -it.cost);
    items := a[..];
  }

  /** Sum over a concatenation. */
  lemma {:induction false} SumPercentAppend(u: seq<BreakdownItem>, v: seq<BreakdownItem>)
    ensures SumPercent(u + v) == SumPercent(u) + SumPercent(v)
    decreases |v|
  {
    if v != [] {
      var n := |v| - 1;
      var w := u + v;
      assert w[..|w| - 1] == u + v[..n];
      SumPercentAppend(u, v[..n]);
    } else {
      assert u + v == u;
    }
  }

  /** Reordering the items does not change the sum of their percentages. */
  lemma {:induction false} SumPercentPermutation(a: seq<BreakdownItem>, b: seq<BreakdownItem>)
    requires multiset(a) == multiset(b)
    ensures SumPercent(a) == SumPercent(b)
    decreases |a|
  {
    if a == [] {
      assert |b| == |multiset(b)| == 0;
    } else {
      var n := |a| - 1;
      var x := a[n];
      assert x in multiset(b) by {
        assert a == a[..n] + [x];
        assert x in multiset(a);
      }
      var j :| 0 <= j < |b| && b[j] == x;
      var rest := b[..j] + b[j + 1..];
      assert b == b[..j] + [x] + b[j + 1..];
      assert a == a[..n] + [x];
      assert multiset(a[..n]) == multiset(a) - multiset{x};
      assert multiset(rest) == multiset(b) - multiset{x};
      SumPercentPermutation(a[..n], rest);
      SumPercentAppend(b[..j] + [x], b[j + 1..]);
      SumPercentAppend(b[..j], [x]);
      SumPercentAppend(b[..j], b[j + 1..]);
      assert SumPercent([x]) == x.percentage by {
        assert [x][..0] == [];
      }
    }
  }

  /** With the percentages of `total`, they add up to the cost sum over `total`, times 100. */
  lemma {:induction false} SumOfPercentages(items: seq<BreakdownItem>, total: real)
    requires total > 0.0
    ensures SumPercent(WithPercentages(items, total)) == SumCost(items) / total * 100.0
    decreases |items|
  {
    if items != [] {
      var n := |items| - 1;
      SumOfPercentages(items[..n], total);
      var shaped := WithPercentages(items, total);
      assert shaped[..n] == WithPercentages(items[..n], total);
      var s := SumCost(items[..n]);
      var c := items[n].cost;
      assert (s + c) / total * 100.0 == s / total * 100.0 + c / total * 100.0;
    }
  }

  /**
   * When the total is positive, the percentages of the returned items add up to 100: for any
   * pushed items (`Pushed(rows)` among them), any reordering of them with their percentages of
   * their cost sum set.
   */
  lemma BreakdownPercentagesSumTo100(pushed: seq<BreakdownItem>, items: seq<BreakdownItem>)
    requires SumCost(pushed) > 0.0
    requires multiset(items) == multiset(WithPercentages(pushed, SumCost(pushed)))
    ensures SumPercent(items) == 100.0
  {
    var total := SumCost(pushed);
    assert total / total == 1.0;
    var shaped := WithPercentages(pushed, total);
    SumOfPercentages(pushed, total);
    assert SumPercent(shaped) == 100.0;
    SumPercentPermutation(items, shaped);
  }

  /** When the total is not positive, every percentage is 0. */
  lemma PercentagesWithoutPositiveTotal(items: seq<BreakdownItem>, total: real)
    requires total <= 0.0
    ensures forall k :: 0 <= k < |items| ==> WithPercentages(items, total)[k].percentage == 0.0
  {
  }

  /** The `get_cost_breakdown` handler; "" stands for an absent parameter. */
  method HandleBreakdown(client: CostClient, subscriptionId: string, timeframe: string) returns (res: Response<BreakdownBody>)
    ensures subscriptionId == "" ==> res == BadRequest(MissingSubscription)
    ensures subscriptionId != "" ==>
              var tf := if timeframe == "" then DefaultTimeframe else timeframe;
              match client.Usage(ScopeOf(subscriptionId), UsageQuery(tf, None, "None", true))
              case None => res == ServerError(BreakdownFailure, UpstreamFailure)
              case Some(result) =>
                var total := SumCost(Pushed(RowsOf(result)));
                && res.Success?
                && res.body.totalCost == total
                && SortedBy(res.body.costBreakdown, (it: BreakdownItem) => -it.cost)
                && multiset(res.body.costBreakdown) == multiset(WithPercentages(Pushed(RowsOf(result)), total))
                && res.body.currency == Currency(result.columns)
                && res.body.timeframe == tf && res.body.subscriptionId == subscriptionId
  {
    if subscriptionId == "" {
      return BadRequest(MissingSubscription);
    }
    var tf := if timeframe == "" then DefaultTimeframe else timeframe;
    var result := client.Usage(ScopeOf(subscriptionId), UsageQuery(tf, None, "None", true));
    if result.None? {
      return ServerError(BreakdownFailure, UpstreamFailure);
    }
    var items, total := CostBreakdown(RowsOf(result.value));
    res := Success(BreakdownBody(items, total, Currency(result.value.columns), tf, subscriptionId));
  }

  // ---------------------------------------------------------------------------
  // get_cost_trend
  // ---------------------------------------------------------------------------

  /** One point of the trend: `{date: row[dateColumn], cost: row[0]}`. */
  datatype TrendPoint = TrendPoint(date: Cell, cost: Cell)

  datatype TrendBody = TrendBody(
    costTrend: seq<TrendPoint>,
    currency: string,
    period: string,
    fromDate: string,
    toDate: string,
    subscriptionId: string)

  /** The `switch` from the period to the query's timeframe and granularity. */
  function QueryWindow(period: string): (r: (string, string))
    ensures r.0 == "Custom" <==> period == "Last30Days" || period == "Last3Months" || period == "Last12Months"
    ensures r.0 != "Custom" ==> r.0 == "MonthToDate"
    ensures r.1 == "Monthly" <==> period == "Last3Months" || period == "Last12Months"
    ensures r.1 != "Monthly" ==> r.1 == "Daily"
  {
    match period
    case "Last30Days" => ("Custom", "Daily")
    case "Last3Months" => ("Custom", "Monthly")
    case "Last12Months" => ("Custom", "Monthly")
    case _ => ("MonthToDate", "Daily")
  }

  predicate IsDateColumn(c: Column)
  {
    c.columnType == "DateTime"
  }

  /** The index of the first "DateTime" column; None for -1, also when there are no columns. */
  function DateColumn(result: QueryResult): (r: Option<nat>)
  {
    if result.columns.None? then None else FirstWhere(result.columns.value, IsDateColumn)
  }

  /** The trend before sorting: a point per row, in row order, or none at all without a date column. */
  function ExtractedTrend(result: QueryResult): (r: seq<TrendPoint>)
    ensures DateColumn(result).None? ==> r == []
    ensures DateColumn(result).Some? ==>
              |r| == |RowsOf(result)| &&
              forall k :: 0 <= k < |r| ==>
                r[k] == TrendPoint(CellAt(RowsOf(result)[k], DateColumn(result).value), CellAt(RowsOf(result)[k], 0))
  {
    var rows := RowsOf(result);
    match DateColumn(result)
    case None => []
    case Some(d) => seq(|rows|, k requires 0 <= k < |rows| => TrendPoint(CellAt(rows[k], d), CellAt(rows[k], 0)))
  }

  /**
   * The extraction loop and the in-place sort of `get_cost_trend`; `timeOf` stands for
   * `new Date(cell)` as a time value.
   */
  method CostTrend(result: QueryResult, timeOf: Cell -> real) returns (trend: seq<TrendPoint>)
    ensures SortedBy(trend, (p: TrendPoint) => timeOf(p.date))
    ensures multiset(trend) == multiset(ExtractedTrend(result))
  {
    var points: seq<TrendPoint> := [];
    var rows := RowsOf(result);
    var dateColumn := DateColumn(result);
    if |rows| > 0 && dateColumn.Some? {
      var i := 0;
      while i < |rows|
        invariant 0 <= i <= |rows|
        invariant points == ExtractedTrend(result)[..i]
      {
        points := points + [TrendPoint(CellAt(rows[i], dateColumn.value), CellAt(rows[i], 0))];
        i := i + 1;
      }
    }
    assert points == ExtractedTrend(result);
    var a := new TrendPoint[|points|](k requires 0 <= k < |points| => points[k]);
    assert a[..] == points;
    SortBy(a, (p: TrendPoint) => timeOf(p.date));
    trend := a[..];
  }

  /** The `get_cost_trend` handler; the query's dates, read from the clock, are parameters. */
  method HandleCostTrend(client: CostClient, subscriptionId: string, period: string, fromDate: string, toDate: string,
                         timeOf: Cell -> real)
    returns (res: Response<TrendBody>)
    ensures subscriptionId == "" ==> res == BadRequest(MissingSubscription)
    ensures subscriptionId != "" ==>
              var p := if period == "" then DefaultPeriod else period;
              var window := QueryWindow(p);
              match client.Usage(ScopeOf(subscriptionId), UsageQuery(window.0, Some((fromDate, toDate)), window.1, false))
              case None => res == ServerError(TrendFailure, UpstreamFailure)
              case Some(result) =>
                && res.Success?
                && SortedBy(res.body.costTrend, (pt: TrendPoint) => timeOf(pt.date))
                && multiset(res.body.costTrend) == multiset(ExtractedTrend(result))
                && res.body == TrendBody(res.body.costTrend, Currency(result.columns), p, fromDate, toDate, subscriptionId)
  {
    if subscriptionId == "" {
      return BadRequest(MissingSubscription);
    }
    var p := if period == "" then DefaultPeriod else period;
    var window := QueryWindow(p);
    var result := client.Usage(ScopeOf(subscriptionId), UsageQuery(window.0, Some((fromDate, toDate)), window.1, false));
    if result.None? {
      return ServerError(TrendFailure, UpstreamFailure);
    }
    var trend := CostTrend(result.value, timeOf);
    res := Success(TrendBody(trend, Currency(result.value.columns), p, fromDate, toDate, subscriptionId));
  }
}
