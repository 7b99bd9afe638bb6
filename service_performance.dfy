/**
 * service_performance.py: the three-service comparison table and its share
 * of the total cost, the radar values with their zero-cost guard, the
 * simulated year of accuracy and latency per service, and the services the
 * key insights single out. Random draws are parameters.
 */
module ServicePerformance {
  import opened Wrappers
  import opened ConfigTree
  import opened Numeric
  import opened CostEngine
  import FinancialOverview

  /** One table row; accuracy is the `uniform(95, 99.9)` draw and latency the `randint(50, 200)` one. */
  datatype ServiceRow = ServiceRow(service: string, cost: real, accuracy: real, latency: int)

  /** The draws of one service. */
  datatype Draw = Draw(accuracy: real, latency: int)

  const ServiceNames: seq<string> := ["Text Generation", "Audio Recognition", "Audio Generation"]

  /** The per-minute cost of each service, in row order: the main.py terms. */
  function ServiceCostTerms(c: ServiceCosts): (r: seq<real>)
    ensures |r| == 3
    ensures r[0] == TextGenerationCost(c) && r[1] == AudioRecognitionCost(c) && r[2] == AudioGenerationCost(c)
  {
    [TextGenerationCost(c), AudioRecognitionCost(c), AudioGenerationCost(c)]
  }

  /** The three costs add up to main.py's total per-minute cost. */
  lemma CostTermsSumToTotal(c: ServiceCosts)
    ensures Sum(ServiceCostTerms(c)) == TotalCostPerMinute(c)
  {
    Sum3(TextGenerationCost(c), AudioRecognitionCost(c), AudioGenerationCost(c));
  }

  /** The comparison table: the rates are read in the formula's order, so the first missing one is the error. */
  function ServiceTable(config: Tree, draws: seq<Draw>): (r: Result<seq<ServiceRow>>)
    requires |draws| == 3
    ensures r.Ok? <==> ReadServiceCosts(config).Ok?
    ensures r.Err? ==> r.error == ReadServiceCosts(config).error
    ensures r.Ok? ==> |r.value| == 3 && forall i :: 0 <= i < 3 ==>
      && r.value[i].service == ServiceNames[i]
      && r.value[i].cost == ServiceCostTerms(ReadServiceCosts(config).value)[i]
      && r.value[i].accuracy == draws[i].accuracy
      && r.value[i].latency == draws[i].latency
  {
    var rc := ReadServiceCosts(config);
    if rc.Err? then Err(rc.error) else Ok(Rows(ServiceCostTerms(rc.value), draws))
  }

  /** One row per service: its name, its cost and the accuracy and latency drawn for it. */
  function Rows(costs: seq<real>, draws: seq<Draw>): (r: seq<ServiceRow>)
    requires |costs| == 3 && |draws| == 3
    ensures |r| == 3 && forall i :: 0 <= i < 3 ==>
      && r[i].service == ServiceNames[i] && r[i].cost == costs[i]
      && r[i].accuracy == draws[i].accuracy && r[i].latency == draws[i].latency
  {
    seq(3, i requires 0 <= i < 3 => ServiceRow(ServiceNames[i], costs[i], draws[i].accuracy, draws[i].latency))
  }

  function Costs(rows: seq<ServiceRow>): (r: seq<real>)
    ensures |r| == |rows| && forall i :: 0 <= i < |rows| ==> r[i] == rows[i].cost
  {
    seq(|rows|, i requires 0 <= i < |rows| => rows[i].cost)
  }

  /** `cost / total_cost_per_minute * 100` per row; a pandas division by zero gives no number. */
  function PercentageOfTotal(rows: seq<ServiceRow>, total: real): (r: Option<seq<real>>)
    ensures r.Some? <==> total != 0.0
    ensures r.Some? ==> |r.value| == |rows|
    ensures r.Some? ==> forall i :: 0 <= i < |rows| ==> r.value[i] * total == rows[i].cost * 100.0
  {
    if total == 0.0 then None
    else Some(seq(|rows|, i requires 0 <= i < |rows| => rows[i].cost / total * 100.0))
  }

  /**
   * When the total passed in is main.py's total for the same configuration,
   * the shares are the financial overview's percentages and add up to 100.
   */
  lemma SharesSumTo100(config: Tree, draws: seq<Draw>, total: real)
    requires |draws| == 3 && ServiceTable(config, draws).Ok?
    requires CalculateTotalCostPerMinute(config) == Ok(total) && total != 0.0
    ensures PercentageOfTotal(ServiceTable(config, draws).value, total) ==
            FinancialOverview.Percentages(Costs(ServiceTable(config, draws).value))
    ensures Sum(PercentageOfTotal(ServiceTable(config, draws).value, total).value) == 100.0
  {
    var c := ReadServiceCosts(config).value;
    var rows := ServiceTable(config, draws).value;
    var costs := Costs(rows);
    assert costs == ServiceCostTerms(c);
    CostTermsSumToTotal(c);
    assert Sum(costs) == total;
    var mine := PercentageOfTotal(rows, total).value;
    var theirs := FinancialOverview.Percentages(costs).value;
    assert mine == theirs by {
      forall i | 0 <= i < |rows|
        ensures mine[i] == theirs[i]
      {
      }
    }
    FinancialOverview.PercentagesSumTo100(costs);
  }

  // ---------------------------------------------------------------------------
  // Radar values.

  /** The stand-in for a zero cost. */
  const ZeroCostStandIn: real := 0.000001

  /**
   * The radar's cost axis, `1 / cost`, with a cost of 0 replaced by 1e-6 so
   * the reciprocal always exists. `shown` is the cost as the table prints it.
   */
  function CostAxis(shown: real): (r: real)
    ensures shown == 0.0 ==> r == 1000000.0
    ensures shown != 0.0 ==> r * shown == 1.0
    ensures shown > 0.0 ==> r > 0.0
  {
    var c := if shown == 0.0 then ZeroCostStandIn else shown;
    1.0 / c
  }

  /** The radar's speed axis, `1 / latency`; numpy gives no finite number for 0. */
  function SpeedAxis(latency: int): (r: Option<real>)
    ensures r.Some? <==> latency != 0
    ensures r.Some? ==> r.value * latency as real == 1.0
  {
    if latency == 0 then None else Some(1.0 / latency as real)
  }

  // ---------------------------------------------------------------------------
  // Simulated year of performance.

  /** The daily dates from 2024-01-01 to 2024-12-31: 2024 is a leap year. */
  function DaysInYear(y: int): nat
  {
    if (y % 4 == 0 && y % 100 != 0) || y % 400 == 0 then 366 else 365
  }

  const SimulatedDays: nat := DaysInYear(2024)

  /** One simulated day of one service; `base` accuracy and latency are that service's table values. */
  datatype Point = Point(service: string, day: nat, accuracy: real, latency: real)

  /** The day's draws: `normal(0, 0.5)` for accuracy, `normal(0, 10)` for latency. */
  datatype Jitter = Jitter(accuracy: real, latency: real)

  function PointAt(row: ServiceRow, day: nat, e: Jitter): (p: Point)
    ensures p.accuracy <= 100.0 && p.latency >= 0.0
    ensures row.accuracy + e.accuracy <= 100.0 ==> p.accuracy == row.accuracy + e.accuracy
    ensures row.latency as real + e.latency >= 0.0 ==> p.latency == row.latency as real + e.latency
  {
    var acc := row.accuracy + e.accuracy;
    var lat := row.latency as real + e.latency;
    Point(row.service, day, if acc < 100.0 then acc else 100.0, if lat > 0.0 then lat else 0.0)
  }

  /** The points of one service, one per day, in date order. */
  function Block(row: ServiceRow, jitter: seq<Jitter>): (r: seq<Point>)
    ensures |r| == |jitter| && forall j :: 0 <= j < |jitter| ==> r[j] == PointAt(row, j, jitter[j])
  {
    seq(|jitter|, j requires 0 <= j < |jitter| => PointAt(row, j, jitter[j]))
  }

  /** `jitter[i]` holds the draws of service `i`, one per day. */
  predicate Rectangular(rows: seq<ServiceRow>, days: nat, jitter: seq<seq<Jitter>>)
  {
    |jitter| == |rows| && forall i :: 0 <= i < |rows| ==> |jitter[i]| == days
  }

  /** Each service's block of days, services in table order. */
  function Series(rows: seq<ServiceRow>, jitter: seq<seq<Jitter>>): seq<Point>
    requires |jitter| == |rows|
  {
    if rows == [] then []
    else
      var n := |rows| - 1;
      Series(rows[..n], jitter[..n]) + Block(rows[n], jitter[n])
  }

  lemma MulLeNat(a: nat, b: nat, k: nat)
    requires a <= b
    ensures a * k <= b * k
  {
  }

  /** The nested loop: for each service, for each date, append one point. */
  method PerformanceSeries(rows: seq<ServiceRow>, days: nat, jitter: seq<seq<Jitter>>) returns (data: seq<Point>)
    requires Rectangular(rows, days, jitter)
    ensures data == Series(rows, jitter)
  {
    data := [];
    var i := 0;
    while i < |rows|
      invariant 0 <= i <= |rows|
      invariant data == Series(rows[..i], jitter[..i])
    {
      ghost var before := data;
      var j := 0;
      while j < days
        invariant 0 <= j <= days
        invariant data == before + Block(rows[i], jitter[i][..j])
      {
        data := data + [PointAt(rows[i], j, jitter[i][j])];
        j := j + 1;
        assert Block(rows[i], jitter[i][..j]) == Block(rows[i], jitter[i][..j - 1]) + [PointAt(rows[i], j - 1, jitter[i][j - 1])];
      }
      assert jitter[i][..days] == jitter[i];
      assert rows[..i + 1][..i] == rows[..i] && jitter[..i + 1][..i] == jitter[..i];
      i := i + 1;
    }
    assert rows[..|rows|] == rows && jitter[..|rows|] == jitter;
  }

  /** There are `|rows| * days` points. */
  lemma {:induction false} SeriesLength(rows: seq<ServiceRow>, days: nat, jitter: seq<seq<Jitter>>)
    requires Rectangular(rows, days, jitter)
    ensures |Series(rows, jitter)| == |rows| * days
  {
    if rows != [] {
      var n := |rows| - 1;
      SeriesLength(rows[..n], days, jitter[..n]);
      assert n * days + days == (n + 1) * days;
    }
  }

  /** Point `i * days + j` is service `i` on day `j`. */
  lemma {:induction false} SeriesPoint(rows: seq<ServiceRow>, days: nat, jitter: seq<seq<Jitter>>, i: nat, j: nat)
    requires Rectangular(rows, days, jitter) && i < |rows| && j < days
    ensures i * days + j < |Series(rows, jitter)|
    ensures Series(rows, jitter)[i * days + j] == PointAt(rows[i], j, jitter[i][j])
  {
    var n := |rows| - 1;
    SeriesLength(rows[..n], days, jitter[..n]);
    SeriesLength(rows, days, jitter);
    if i == n {
    } else {
      assert i * days + j < n * days by {
        assert i * days + j < (i + 1) * days;
        MulLeNat(i + 1, n, days);
      }
      SeriesPoint(rows[..n], days, jitter[..n], i, j);
    }
  }

  /** Every simulated accuracy is at most 100 and every latency at least 0. */
  lemma {:induction false} SeriesBounds(rows: seq<ServiceRow>, jitter: seq<seq<Jitter>>)
    requires |jitter| == |rows|
    ensures forall k :: 0 <= k < |Series(rows, jitter)| ==>
      Series(rows, jitter)[k].accuracy <= 100.0 && Series(rows, jitter)[k].latency >= 0.0
  {
    if rows != [] {
      var n := |rows| - 1;
      SeriesBounds(rows[..n], jitter[..n]);
    }
  }

  /** The three services over the 2024 calendar give 1098 points. */
  lemma YearSeriesLength(config: Tree, draws: seq<Draw>, jitter: seq<seq<Jitter>>)
    requires |draws| == 3 && ServiceTable(config, draws).Ok?
    requires Rectangular(ServiceTable(config, draws).value, SimulatedDays, jitter)
    ensures SimulatedDays == 366
    ensures |Series(ServiceTable(config, draws).value, jitter)| == 1098
  {
    ThreeServicesOverYear(ServiceTable(config, draws).value, jitter);
  }

  /** Three rows of 366 days each. */
  lemma ThreeServicesOverYear(rows: seq<ServiceRow>, jitter: seq<seq<Jitter>>)
    requires |rows| == 3 && Rectangular(rows, SimulatedDays, jitter)
    ensures SimulatedDays == 366
    ensures |Series(rows, jitter)| == 1098
  {
    assert 2024 % 4 == 0 && 2024 % 100 != 0;
    SeriesLength(rows, SimulatedDays, jitter);
  }

  /** The first row whose service has this name, as `df[df['Service'] == name].values[0]` takes it. */
  function FindService(rows: seq<ServiceRow>, name: string): (r: Option<nat>)
    ensures r.Some? ==> r.value < |rows| && rows[r.value].service == name
    ensures r.Some? ==> forall j :: 0 <= j < r.value ==> rows[j].service != name
    ensures r.None? ==> forall j :: 0 <= j < |rows| ==> rows[j].service != name
  {
    if rows == [] then None
    else if rows[0].service == name then Some(0)
    else
      match FindService(rows[1..], name)
      case Some(k) => Some(k + 1)
      case None => None
  }

  /** In the comparison table the names are distinct, so each service finds its own row. */
  lemma TableServiceFindsItsRow(config: Tree, draws: seq<Draw>, i: nat)
    requires |draws| == 3 && ServiceTable(config, draws).Ok? && i < 3
    ensures FindService(ServiceTable(config, draws).value, ServiceNames[i]) == Some(i)
  {
    var rows := ServiceTable(config, draws).value;
    var r := FindService(rows, ServiceNames[i]);
    assert r.Some? by {
      assert rows[i].service == ServiceNames[i];
    }
    assert ServiceNames[0] != ServiceNames[1] && ServiceNames[0] != ServiceNames[2] && ServiceNames[1] != ServiceNames[2];
  }

  // ---------------------------------------------------------------------------
  // Key insights.

  /** pandas `idxmax`: the first index holding the largest value. */
  function ArgMax(s: seq<real>): (i: nat)
    requires |s| > 0
    ensures i < |s|
    ensures forall j :: 0 <= j < |s| ==> s[j] <= s[i]
    ensures forall j :: 0 <= j < i ==> s[j] < s[i]
  {
    if |s| == 1 then 0
    else
      var k := ArgMax(s[..|s| - 1]);
      assert forall j :: 0 <= j < |s| - 1 ==> s[..|s| - 1][j] == s[j];
      if s[|s| - 1] > s[k] then |s| - 1 else k
  }

  /** pandas `idxmin` over the integer latencies: the first index holding the smallest value. */
  function ArgMin(s: seq<int>): (i: nat)
    requires |s| > 0
    ensures i < |s|
    ensures forall j :: 0 <= j < |s| ==> s[i] <= s[j]
    ensures forall j :: 0 <= j < i ==> s[i] < s[j]
  {
    if |s| == 1 then 0
    else
      var k := ArgMin(s[..|s| - 1]);
      assert forall j :: 0 <= j < |s| - 1 ==> s[..|s| - 1][j] == s[j];
      if s[|s| - 1] < s[k] then |s| - 1 else k
  }

  /** Only one index is the first maximum. */
  lemma ArgMaxUnique(s: seq<real>, i: nat)
    requires i < |s|
    requires forall j :: 0 <= j < |s| ==> s[j] <= s[i]
    requires forall j :: 0 <= j < i ==> s[j] < s[i]
    ensures ArgMax(s) == i
  {
  }

  function Accuracies(rows: seq<ServiceRow>): (r: seq<real>)
    ensures |r| == |rows| && forall i :: 0 <= i < |rows| ==> r[i] == rows[i].accuracy
  {
    seq(|rows|, i requires 0 <= i < |rows| => rows[i].accuracy)
  }

  function Latencies(rows: seq<ServiceRow>): (r: seq<int>)
    ensures |r| == |rows| && forall i :: 0 <= i < |rows| ==> r[i] == rows[i].latency
  {
    seq(|rows|, i requires 0 <= i < |rows| => rows[i].latency)
  }

  /** The insights: the most expensive, the most accurate and the fastest service. */
  datatype Insights = Insights(mostExpensive: string, bestAccuracy: string, lowestLatency: string)

  /** Each insight names the first row attaining the extreme, as `idxmax` and `idxmin` pick it among ties. */
  function KeyInsights(rows: seq<ServiceRow>, shares: seq<real>): (r: Insights)
    requires |rows| > 0 && |shares| == |rows|
    ensures exists i :: 0 <= i < |rows| && r.mostExpensive == rows[i].service
                        && (forall j :: 0 <= j < |rows| ==> shares[j] <= shares[i])
                        && (forall j :: 0 <= j < i ==> shares[j] < shares[i])
    ensures exists i :: 0 <= i < |rows| && r.bestAccuracy == rows[i].service
                        && (forall j :: 0 <= j < |rows| ==> rows[j].accuracy <= rows[i].accuracy)
                        && (forall j :: 0 <= j < i ==> rows[j].accuracy < rows[i].accuracy)
    ensures exists i :: 0 <= i < |rows| && r.lowestLatency == rows[i].service
                        && (forall j :: 0 <= j < |rows| ==> rows[i].latency <= rows[j].latency)
                        && (forall j :: 0 <= j < i ==> rows[i].latency < rows[j].latency)
  {
    Insights(MostExpensive(rows, shares), MostAccurate(rows), Fastest(rows))
  }

  /** The service of the first row with the largest share of the cost. */
  function MostExpensive(rows: seq<ServiceRow>, shares: seq<real>): (r: string)
    requires |rows| > 0 && |shares| == |rows|
    ensures exists i :: 0 <= i < |rows| && r == rows[i].service
                        && (forall j :: 0 <= j < |rows| ==> shares[j] <= shares[i])
                        && (forall j :: 0 <= j < i ==> shares[j] < shares[i])
  {
    rows[ArgMax(shares)].service
  }

  /** The service of the first row of highest accuracy. */
  function MostAccurate(rows: seq<ServiceRow>): (r: string)
    requires |rows| > 0
    ensures exists i :: 0 <= i < |rows| && r == rows[i].service
                        && (forall j :: 0 <= j < |rows| ==> rows[j].accuracy <= rows[i].accuracy)
                        && (forall j :: 0 <= j < i ==> rows[j].accuracy < rows[i].accuracy)
  {
    var acc := Accuracies(rows);
    var a := ArgMax(acc);
    assert forall j :: 0 <= j < |rows| ==> acc[j] == rows[j].accuracy;
    rows[a].service
  }

  /** The service of the first row of lowest latency. */
  function Fastest(rows: seq<ServiceRow>): (r: string)
    requires |rows| > 0
    ensures exists i :: 0 <= i < |rows| && r == rows[i].service
                        && (forall j :: 0 <= j < |rows| ==> rows[i].latency <= rows[j].latency)
                        && (forall j :: 0 <= j < i ==> rows[i].latency < rows[j].latency)
  {
    var lat := Latencies(rows);
    var l := ArgMin(lat);
    assert forall j :: 0 <= j < |rows| ==> lat[j] == rows[j].latency;
    rows[l].service
  }

  /** Scaling by a positive total keeps the first maximum where it was. */
  lemma ArgMaxOfScaled(s: seq<real>, t: seq<real>, total: real)
    requires |s| > 0 && |t| == |s| && total > 0.0
    requires forall j :: 0 <= j < |s| ==> t[j] * total == s[j] * 100.0
    ensures ArgMax(t) == ArgMax(s)
  {
    var i := ArgMax(s);
    ScaledKeepsOrder(s, t, total, i);
    ArgMaxUnique(t, i);
  }

  lemma ScaledKeepsOrder(s: seq<real>, t: seq<real>, total: real, i: nat)
    requires i < |s| && |t| == |s| && total > 0.0
    requires forall j :: 0 <= j < |s| ==> t[j] * total == s[j] * 100.0
    requires forall j :: 0 <= j < |s| ==> s[j] <= s[i]
    requires forall j :: 0 <= j < i ==> s[j] < s[i]
    ensures forall j :: 0 <= j < |t| ==> t[j] <= t[i]
    ensures forall j :: 0 <= j < i ==> t[j] < t[i]
  {
    forall j | 0 <= j < |s|
      ensures t[j] <= t[i]
      ensures j < i ==> t[j] < t[i]
    {
      var a, b, x, y := s[j], s[i], t[j], t[i];
      assert x * total == a * 100.0 && y * total == b * 100.0;
      ScaledOrder(a, b, x, y, total);
    }
  }

  lemma ScaledOrder(a: real, b: real, x: real, y: real, total: real)
    requires total > 0.0 && x * total == a * 100.0 && y * total == b * 100.0
    ensures a <= b ==> x <= y
    ensures a < b ==> x < y
  {
    var xt, yt := x * total, y * total;
    if x > y {
      MulLt(y, x, total);
      assert yt < xt;
    }
    if x >= y {
      MulLe(y, x, total);
      assert yt <= xt;
    }
  }

  /** With a positive total, the most expensive share belongs to the row of the largest cost. */
  lemma MostExpensiveIsLargestCost(rows: seq<ServiceRow>, total: real)
    requires |rows| > 0 && total > 0.0
    ensures ArgMax(PercentageOfTotal(rows, total).value) == ArgMax(Costs(rows))
  {
    ArgMaxOfScaled(Costs(rows), PercentageOfTotal(rows, total).value, total);
  }
}
