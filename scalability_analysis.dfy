/**
 * scalability_analysis.py: the scale curve (one row per scale factor), the
 * "<n> Agents" label and its re-parsing, cost per call, efficiency, and the
 * `calculate_costs` helper of this file.
 */
module ScalabilityAnalysis {
  import opened Wrappers
  import opened ConfigTree
  import opened Numeric
  import FinancialOverview
  import Defaults

  /** The scale factors, in the order the rows are produced. */
  const ScaleFactors: seq<real> := [0.5, 1.0, 2.0, 5.0, 10.0]

  /** `int(num_agents * factor)`: truncation toward zero. */
  function ScaledAgents(numAgents: int, factor: real): (n: int)
    ensures numAgents >= 0 && factor >= 0.0 ==>
              0 <= n && n as real <= numAgents as real * factor < n as real + 1.0
  {
    Trunc(numAgents as real * factor)
  }

  /** Factor 1 gives the agent count back unchanged. */
  lemma ScaleByOne(numAgents: int)
    ensures ScaledAgents(numAgents, 1.0) == numAgents
  {
    TruncOfInt(numAgents);
  }

  /** This file's `calculate_revenue`: a daily revenue times a local 30-day month. */
  function DailyRevenue(agents: int, callsPerDay: real, price: real): real
  {
    agents as real * callsPerDay * price
  }

  function CalculateRevenue(config: Tree, agents: int, callsPerDay: real): (r: Result<real>)
    ensures r.Ok? <==> FinancialOverview.PricePerCall(config).Ok?
    ensures r.Ok? ==> r.value == DailyRevenue(agents, callsPerDay, FinancialOverview.PricePerCall(config).value) * 30.0
  {
    var price :- FinancialOverview.PricePerCall(config);
    Ok(DailyRevenue(agents, callsPerDay, price) * 30.0)
  }

  /** The daily-times-30 revenue is the financial overview's monthly revenue, errors included. */
  lemma CalculateRevenueAgrees(config: Tree, agents: int, callsPerDay: real)
    ensures CalculateRevenue(config, agents, callsPerDay) == FinancialOverview.CalculateRevenue(config, agents, callsPerDay)
  {
    var price := FinancialOverview.PricePerCall(config);
    if price.Ok? {
      assert DailyRevenue(agents, callsPerDay, price.value) * 30.0 ==
             FinancialOverview.MonthlyRevenue(agents, callsPerDay, price.value);
    }
  }

  /** One row of the scale table. */
  datatype ScaleRow = ScaleRow(scale: string, revenue: real, cost: real, profit: real, margin: real)

  /**
   * The row for a scale of `n` agents, priced at `price`: cost
   * `n*calls*duration*cpm*30`, revenue through this file's `calculate_revenue`,
   * profit as their difference and the guarded margin. A factor's row is the
   * row at its own truncated agent count and depends on no other factor.
   */
  function ScaleRowAt(n: int, price: real, callsPerDay: real, duration: real, costPerMinute: real): (r: ScaleRow)
    ensures r.profit == r.revenue - r.cost
    ensures r.margin == FinancialOverview.ProfitMargin(r.revenue, r.cost)
    ensures n == 0 ==> r.revenue == 0.0 && r.cost == 0.0 && r.margin == 0.0
  {
    var cost := n as real * callsPerDay * duration * costPerMinute * 30.0;
    var revenue := DailyRevenue(n, callsPerDay, price) * 30.0;
    ScaleRow(AgentsLabel(n), revenue, cost, revenue - cost,
             FinancialOverview.ProfitMargin(revenue, cost))
  }

  /** The row's revenue is the financial overview's monthly revenue at the scaled agent count. */
  lemma ScaleRowRevenue(n: int, price: real, callsPerDay: real, duration: real, costPerMinute: real)
    ensures var row := ScaleRowAt(n, price, callsPerDay, duration, costPerMinute);
      && row.revenue == FinancialOverview.MonthlyRevenue(n, callsPerDay, price)
      && row.profit == row.revenue - row.cost
      && row.margin == FinancialOverview.ProfitMargin(row.revenue, row.cost)
  {
  }

  /**
   * The scale loop: for each factor in order, re-read the price (through
   * `calculate_revenue`) and append that factor's row.
   */
  method ScaleCurve(config: Tree, numAgents: int, callsPerDay: real, duration: real, costPerMinute: real)
    returns (r: Result<seq<ScaleRow>>)
    ensures r.Ok? <==> FinancialOverview.PricePerCall(config).Ok?
    ensures r.Err? ==> r.error == FinancialOverview.PricePerCall(config).error
    ensures r.Ok? ==>
      && |r.value| == |ScaleFactors|
      && forall i :: 0 <= i < |ScaleFactors| ==>
           r.value[i] == ScaleRowAt(ScaledAgents(numAgents, ScaleFactors[i]),
                                    FinancialOverview.PricePerCall(config).value, callsPerDay, duration, costPerMinute)
  {
    var rows: seq<ScaleRow> := [];
    var i := 0;
    while i < |ScaleFactors|
      invariant 0 <= i <= |ScaleFactors| && |rows| == i
      invariant i > 0 ==> FinancialOverview.PricePerCall(config).Ok?
      invariant forall j :: 0 <= j < i ==>
        rows[j] == ScaleRowAt(ScaledAgents(numAgents, ScaleFactors[j]),
                              FinancialOverview.PricePerCall(config).value, callsPerDay, duration, costPerMinute)
    {
      var factor := ScaleFactors[i];
      var agents := ScaledAgents(numAgents, factor);
      var cost := agents as real * callsPerDay * duration * costPerMinute * 30.0;
      var revenue := CalculateRevenue(config, agents, callsPerDay);
      if revenue.Err? {
        return Err(revenue.error);
      }
      var profit := revenue.value - cost;
      var margin := if revenue.value > 0.0 then profit / revenue.value * 100.0 else 0.0;
      var row := ScaleRow(AgentsLabel(agents), revenue.value, cost, profit, margin);
      RowMatches(agents, FinancialOverview.PricePerCall(config).value, callsPerDay, duration, costPerMinute,
                 revenue.value, cost, profit, margin);
      rows := rows + [row];
      i := i + 1;
    }
    return Ok(rows);
  }

  /** The loop's row, built from the values it computed, is the specified row. */
  lemma RowMatches(n: int, price: real, callsPerDay: real, duration: real, costPerMinute: real,
                   revenue: real, cost: real, profit: real, margin: real)
    requires revenue == DailyRevenue(n, callsPerDay, price) * 30.0
    requires cost == n as real * callsPerDay * duration * costPerMinute * 30.0
    requires profit == revenue - cost
    requires margin == if revenue > 0.0 then profit / revenue * 100.0 else 0.0
    ensures ScaleRow(AgentsLabel(n), revenue, cost, profit, margin) ==
            ScaleRowAt(n, price, callsPerDay, duration, costPerMinute)
  {
  }

  /** At every scale with at least one agent the margin is the same, `(price - duration*cpm)/price * 100`. */
  lemma MarginIndependentOfScale(n: int, price: real, callsPerDay: real, duration: real, costPerMinute: real)
    requires price > 0.0 && callsPerDay > 0.0 && n > 0
    ensures ScaleRowAt(n, price, callsPerDay, duration, costPerMinute).margin ==
            (price - duration * costPerMinute) / price * 100.0
  {
    var k := n as real * callsPerDay * 30.0;
    var row := ScaleRowAt(n, price, callsPerDay, duration, costPerMinute);
    assert k > 0.0 by { PositiveProduct(n as real, callsPerDay); }
    assert row.revenue == k * price;
    assert row.cost == k * (duration * costPerMinute);
    CancelCommonFactor(k, price, price - duration * costPerMinute);
  }

  lemma PositiveProduct(a: real, b: real)
    requires a > 0.0 && b > 0.0
    ensures a * b * 30.0 > 0.0
  {
  }

  /** `(k*y) / (k*x) == y / x` for a non-zero common factor. */
  lemma CancelCommonFactor(k: real, x: real, y: real)
    requires k != 0.0 && x != 0.0
    ensures (k * y) / (k * x) == y / x
  {
  }

  // ---------------------------------------------------------------------------
  // The "<n> Agents" label and `str.split().str[0].astype(int)`.

  function DigitChar(d: nat): char
    requires d < 10
  {
    ('0' as int + d) as char
  }

  function NatDigits(n: nat): string
  {
    if n < 10 then [DigitChar(n)] else NatDigits(n / 10) + [DigitChar(n % 10)]
  }

  /** `str(n)` for an int. */
  function IntToDecimal(n: int): string
  {
    if n < 0 then "-" + NatDigits(-n) else NatDigits(n)
  }

  /** `f"{n} Agents"`. */
  function AgentsLabel(n: int): string
  {
    IntToDecimal(n) + " Agents"
  }

  predicate IsSpace(c: char)
  {
    c == ' ' || c == '\t' || c == '\n' || c == '\r' || c == '\U{000B}' || c == '\U{000C}'
  }

  predicate IsDigit(c: char)
  {
    '0' <= c <= '9'
  }

  predicate AllDigits(s: string)
  {
    forall i :: 0 <= i < |s| ==> IsDigit(s[i])
  }

  function DropSpaces(s: string): (r: string)
    ensures |r| <= |s| && (r != [] ==> !IsSpace(r[0]))
  {
    if s != [] && IsSpace(s[0]) then DropSpaces(s[1..]) else s
  }

  function TakeWord(s: string): (r: string)
    ensures forall i :: 0 <= i < |r| ==> !IsSpace(r[i])
  {
    if s == [] || IsSpace(s[0]) then [] else [s[0]] + TakeWord(s[1..])
  }

  /** `s.split()[0]`, or None when `s` holds no word. */
  function FirstField(s: string): (r: Option<string>)
    ensures r.Some? ==> r.value != [] && forall i :: 0 <= i < |r.value| ==> !IsSpace(r.value[i])
  {
    var t := DropSpaces(s);
    if t == [] then None else Some(TakeWord(t))
  }

  function DigitsValue(s: string): nat
    requires AllDigits(s)
  {
    if s == [] then 0 else DigitsValue(s[..|s| - 1]) * 10 + (s[|s| - 1] as int - '0' as int)
  }

  /** `int(s)` for an optionally signed run of ASCII digits; anything else is a ValueError. */
  function ParseInt(s: string): (r: Result<int>)
    ensures r.Err? ==> r.error == ValueError
  {
    if s != [] && (s[0] == '-' || s[0] == '+') then
      if |s| > 1 && AllDigits(s[1..]) then
        Ok(if s[0] == '-' then -(DigitsValue(s[1..]) as int) else DigitsValue(s[1..]))
      else Err(ValueError)
    else if s != [] && AllDigits(s) then Ok(DigitsValue(s))
    else Err(ValueError)
  }

  /** The agent count read back from a scale label; a label without a word yields NaN, which `astype(int)` rejects. */
  function LabelAgents(scale: string): (r: Result<int>)
    ensures r.Err? ==> r.error == ValueError
  {
    match FirstField(scale)
    case None => Err(ValueError)
    case Some(w) => ParseInt(w)
  }

  lemma {:induction false} NatDigitsRoundTrip(n: nat)
    ensures NatDigits(n) != [] && AllDigits(NatDigits(n)) && DigitsValue(NatDigits(n)) == n
  {
    if n >= 10 {
      NatDigitsRoundTrip(n / 10);
      var s := NatDigits(n);
      assert s[..|s| - 1] == NatDigits(n / 10);
    }
  }

  lemma {:induction false} TakeWordPrefix(w: string, rest: string)
    requires forall i :: 0 <= i < |w| ==> !IsSpace(w[i])
    requires rest != [] && IsSpace(rest[0])
    ensures TakeWord(w + rest) == w
  {
    if w == [] {
      assert w + rest == rest;
    } else {
      assert (w + rest)[1..] == w[1..] + rest;
      TakeWordPrefix(w[1..], rest);
    }
  }

  /** The label round-trips: splitting off the first word and parsing it gives back the agent count. */
  lemma LabelRoundTrip(n: int)
    ensures LabelAgents(AgentsLabel(n)) == Ok(n)
  {
    var d := IntToDecimal(n);
    var m: nat := if n < 0 then -n else n;
    NatDigitsRoundTrip(m);
    assert forall i :: 0 <= i < |d| ==> !IsSpace(d[i]) by {
      forall i | 0 <= i < |d| ensures !IsSpace(d[i]) {
        if n < 0 && i == 0 {
        } else {
          var k := if n < 0 then i - 1 else i;
          assert d[i] == NatDigits(m)[k];
          assert IsDigit(NatDigits(m)[k]);
        }
      }
    }
    var text := AgentsLabel(n);
    assert text == d + " Agents";
    assert DropSpaces(text) == text;
    TakeWordPrefix(d, " Agents");
    assert FirstField(text) == Some(d);
    if n < 0 {
      assert d[1..] == NatDigits(m);
    }
  }

  // ---------------------------------------------------------------------------
  // Per-row derived columns. pandas division by zero yields inf or NaN instead of
  // raising; those cells are None here.

  /** `Monthly Cost / (label agents * calls_per_day * 30)`. */
  function CostPerCall(row: ScaleRow, callsPerDay: real): (r: Result<Option<real>>)
    ensures r.Err? <==> LabelAgents(row.scale).Err?
    ensures r.Ok? ==>
      var d := LabelAgents(row.scale).value as real * callsPerDay * 30.0;
      (r.value.Some? <==> d != 0.0) && (r.value.Some? ==> r.value.value * d == row.cost)
  {
    var n :- LabelAgents(row.scale);
    var d := n as real * callsPerDay * 30.0;
    Ok(if d == 0.0 then None else Some(row.cost / d))
  }

  /**
   * Cost per call does not vary with scale: it is `duration * cpm` at every
   * scale with an agent, and undefined at a scale that truncates to no agents.
   */
  lemma CostPerCallIsConstant(n: int, price: real, callsPerDay: real, duration: real, costPerMinute: real)
    requires callsPerDay != 0.0
    ensures CostPerCall(ScaleRowAt(n, price, callsPerDay, duration, costPerMinute), callsPerDay) ==
            Ok(if n == 0 then None else Some(duration * costPerMinute))
  {
    var row := ScaleRowAt(n, price, callsPerDay, duration, costPerMinute);
    RowLabelAgents(n, price, callsPerDay, duration, costPerMinute);
    CostPerCallOfCost(row, n, callsPerDay, duration, costPerMinute);
  }

  lemma CostPerCallOfCost(row: ScaleRow, n: int, callsPerDay: real, duration: real, costPerMinute: real)
    requires callsPerDay != 0.0 && LabelAgents(row.scale) == Ok(n)
    requires row.cost == n as real * callsPerDay * duration * costPerMinute * 30.0
    ensures CostPerCall(row, callsPerDay) == Ok(if n == 0 then None else Some(duration * costPerMinute))
  {
    var d := n as real * callsPerDay * 30.0;
    if n != 0 {
      NonZeroProduct(n as real, callsPerDay);
      PerCallOfScaledCost(n as real, callsPerDay, duration, costPerMinute, row.cost);
      CostPerCallOfRow(row, callsPerDay, n, d, duration * costPerMinute);
    } else {
      assert d == 0.0;
    }
  }

  lemma RowLabelAgents(n: int, price: real, callsPerDay: real, duration: real, costPerMinute: real)
    ensures LabelAgents(ScaleRowAt(n, price, callsPerDay, duration, costPerMinute).scale) == Ok(n)
  {
    LabelRoundTrip(n);
  }

  lemma CostPerCallOfRow(row: ScaleRow, callsPerDay: real, n: int, d: real, q: real)
    requires LabelAgents(row.scale) == Ok(n)
    requires d == n as real * callsPerDay * 30.0 && d != 0.0 && row.cost / d == q
    ensures CostPerCall(row, callsPerDay) == Ok(Some(q))
  {
    var r := CostPerCall(row, callsPerDay);
    assert r.Ok? && r.value.Some?;
    assert r.value.value == row.cost / d;
  }

  /** `(n*c*u*v*30) / (n*c*30) == u*v`, with the cost's own association `n*calls*duration*cpm*30`. */
  lemma PerCallOfScaledCost(n: real, c: real, u: real, v: real, cost: real)
    requires n * c * 30.0 != 0.0
    requires cost == n * c * u * v * 30.0
    ensures cost / (n * c * 30.0) == u * v
  {
    assert cost == (n * c * 30.0) * (u * v);
  }

  lemma NonZeroProduct(a: real, b: real)
    requires a != 0.0 && b != 0.0
    ensures a * b * 30.0 != 0.0
  {
  }

  /** One agent at factor 0.5 truncates to zero agents, so that row has no cost per call. */
  lemma HalfOfOneAgentHasNoCostPerCall(price: real, callsPerDay: real, duration: real, costPerMinute: real)
    requires callsPerDay != 0.0
    ensures CostPerCall(ScaleRowAt(ScaledAgents(1, 0.5), price, callsPerDay, duration, costPerMinute), callsPerDay)
            == Ok(None)
  {
    assert ScaledAgents(1, 0.5) == 0;
    CostPerCallIsConstant(0, price, callsPerDay, duration, costPerMinute);
  }

  /** `Monthly Profit / Monthly Cost`. */
  function Efficiency(row: ScaleRow): (r: Option<real>)
    ensures r.Some? <==> row.cost != 0.0
    ensures r.Some? ==> r.value * row.cost == row.profit
  {
    if row.cost == 0.0 then None else Some(row.profit / row.cost)
  }

  /** Efficiency too is the same at every scale with an agent: `(price - duration*cpm) / (duration*cpm)`. */
  lemma EfficiencyIsConstant(n: int, price: real, callsPerDay: real, duration: real, costPerMinute: real)
    requires callsPerDay != 0.0 && duration * costPerMinute != 0.0 && n != 0
    ensures Efficiency(ScaleRowAt(n, price, callsPerDay, duration, costPerMinute)) ==
            Some((price - duration * costPerMinute) / (duration * costPerMinute))
  {
    var k := n as real * callsPerDay * 30.0;
    NonZeroProduct(n as real, callsPerDay);
    ScaleRowFactors(n, price, callsPerDay, duration, costPerMinute, k);
    EfficiencyOfMultiples(ScaleRowAt(n, price, callsPerDay, duration, costPerMinute), k, duration * costPerMinute, price);
  }

  /** A row whose cost and revenue are `k*x` and `k*p` has efficiency `(p - x) / x`. */
  lemma EfficiencyOfMultiples(row: ScaleRow, k: real, x: real, p: real)
    requires k != 0.0 && x != 0.0
    requires row.cost == k * x && row.revenue == k * p && row.profit == row.revenue - row.cost
    ensures Efficiency(row) == Some((p - x) / x)
  {
    RatioOfMultiples(k, x, p, row.cost, row.profit);
  }

  /** A row's cost and revenue share the factor `agents * calls * 30`. */
  lemma ScaleRowFactors(n: int, price: real, callsPerDay: real, duration: real, costPerMinute: real, k: real)
    requires k == n as real * callsPerDay * 30.0
    ensures var row := ScaleRowAt(n, price, callsPerDay, duration, costPerMinute);
      row.cost == k * (duration * costPerMinute) && row.revenue == k * price
  {
    var a := n as real;
    assert a * callsPerDay * duration * costPerMinute * 30.0 == (a * callsPerDay * 30.0) * (duration * costPerMinute);
    assert a * callsPerDay * price * 30.0 == (a * callsPerDay * 30.0) * price;
  }

  /** With `cost = k*x` and `profit = k*p - k*x`, `profit / cost == (p - x) / x`. */
  lemma RatioOfMultiples(k: real, x: real, p: real, cost: real, profit: real)
    requires k != 0.0 && x != 0.0
    requires cost == k * x && profit == k * p - cost
    ensures cost != 0.0 && profit / cost == (p - x) / x
  {
    assert profit == k * (p - x);
    CancelCommonFactor(k, x, p - x);
  }

  // ---------------------------------------------------------------------------
  // `calculate_costs` of this file.

  /** The `selected_services` argument: a dict (its items in insertion order) or some other value. */
  datatype Selection = SelectionDict(items: seq<(Tree, Tree)>) | NotADict

  /** The guard: a dict whose keys and values are all strings. */
  predicate ValidSelection(s: Selection)
  {
    s.SelectionDict? && forall i :: 0 <= i < |s.items| ==> s.items[i].0.Text? && s.items[i].1.Text?
  }

  datatype ServiceCost = ServiceCost(service: string, perMinute: real, daily: real, monthly: real)

  function OtherPath(name: string): seq<string>
  {
    ["service_costs", "other", name]
  }

  function CategoryPath(item: (Tree, Tree)): seq<string>
    requires item.0.Text? && item.1.Text?
  {
    ["service_costs", item.0.s, item.1.s]
  }

  /**
   * The cells of the "Cost per Minute ($)" column as the configuration holds
   * them, in column order: Landline, Client Landline, the selected services,
   * SIP. Only lookups happen here; the first missing key is the error.
   */
  function SelectedEntries(config: Tree, items: seq<(Tree, Tree)>): (r: Result<seq<Tree>>)
    requires forall i :: 0 <= i < |items| ==> items[i].0.Text? && items[i].1.Text?
    ensures r.Ok? <==>
      && GetPath(config, OtherPath("Landline")).Ok? && GetPath(config, OtherPath("Client Landline")).Ok?
      && (forall i :: 0 <= i < |items| ==> GetPath(config, CategoryPath(items[i])).Ok?)
      && GetPath(config, OtherPath("SIP")).Ok?
    ensures r.Ok? ==>
      && |r.value| == |items| + 3
      && GetPath(config, OtherPath("Landline")) == Ok(r.value[0])
      && GetPath(config, OtherPath("Client Landline")) == Ok(r.value[1])
      && (forall i :: 0 <= i < |items| ==> GetPath(config, CategoryPath(items[i])) == Ok(r.value[i + 2]))
      && GetPath(config, OtherPath("SIP")) == Ok(r.value[|items| + 2])
  {
    var landline :- GetPath(config, OtherPath("Landline"));
    var client :- GetPath(config, OtherPath("Client Landline"));
    var chosen :- CategoryEntries(config, items);
    var sip :- GetPath(config, OtherPath("SIP"));
    Ok([landline, client] + chosen + [sip])
  }

  /** `config["service_costs"][category][key]` for each selected pair, in order. */
  function CategoryEntries(config: Tree, items: seq<(Tree, Tree)>): (r: Result<seq<Tree>>)
    requires forall i :: 0 <= i < |items| ==> items[i].0.Text? && items[i].1.Text?
    ensures r.Ok? <==> forall i :: 0 <= i < |items| ==> GetPath(config, CategoryPath(items[i])).Ok?
    ensures r.Ok? ==> |r.value| == |items|
    ensures r.Ok? ==> forall i :: 0 <= i < |items| ==> GetPath(config, CategoryPath(items[i])) == Ok(r.value[i])
  {
    if items == [] then Ok([])
    else
      var first :- GetPath(config, CategoryPath(items[0]));
      var rest := CategoryEntries(config, items[1..]);
      assert forall i :: 1 <= i < |items| ==> items[i] == items[1..][i - 1];
      if rest.Err? then Err(rest.error) else Ok([first] + rest.value)
  }

  /** The column as numbers: the cost arithmetic of line 35 raises TypeError on any other cell. */
  function Numbers(cells: seq<Tree>): (r: Result<seq<real>>)
    ensures r.Ok? <==> forall i :: 0 <= i < |cells| ==> cells[i].Num?
    ensures r.Ok? ==> |r.value| == |cells| && forall i :: 0 <= i < |cells| ==> cells[i] == Num(r.value[i])
  {
    if cells == [] then Ok([])
    else
      var first :- AsNumber(cells[0]);
      var rest := Numbers(cells[1..]);
      assert forall i :: 1 <= i < |cells| ==> cells[i] == cells[1..][i - 1];
      if rest.Err? then Err(rest.error) else Ok([first] + rest.value)
  }

  /**
   * The per-minute rates, in column order. Every cell is looked up before any
   * of them enters the arithmetic, so a missing key anywhere is reported even
   * when an earlier cell is not a number.
   */
  function SelectedRates(config: Tree, items: seq<(Tree, Tree)>): (r: Result<seq<real>>)
    requires forall i :: 0 <= i < |items| ==> items[i].0.Text? && items[i].1.Text?
    ensures SelectedEntries(config, items).Err? ==> r == Err(SelectedEntries(config, items).error)
    ensures r.Ok? <==>
      && GetNum(config, OtherPath("Landline")).Ok? && GetNum(config, OtherPath("Client Landline")).Ok?
      && (forall i :: 0 <= i < |items| ==> GetNum(config, CategoryPath(items[i])).Ok?)
      && GetNum(config, OtherPath("SIP")).Ok?
    ensures r.Ok? ==>
      && |r.value| == |items| + 3
      && GetNum(config, OtherPath("Landline")) == Ok(r.value[0])
      && GetNum(config, OtherPath("Client Landline")) == Ok(r.value[1])
      && (forall i :: 0 <= i < |items| ==> GetNum(config, CategoryPath(items[i])) == Ok(r.value[i + 2]))
      && GetNum(config, OtherPath("SIP")) == Ok(r.value[|items| + 2])
  {
    var cells :- SelectedEntries(config, items);
    EntriesAsNumbers(config, items, cells);
    EntriesAsRates(config, items, cells);
    Numbers(cells)
  }

  /** The looked-up cells are all numbers exactly when every rate reads as a number. */
  lemma EntriesAsNumbers(config: Tree, items: seq<(Tree, Tree)>, cells: seq<Tree>)
    requires forall i :: 0 <= i < |items| ==> items[i].0.Text? && items[i].1.Text?
    requires SelectedEntries(config, items) == Ok(cells)
    ensures Numbers(cells).Ok? <==>
      && GetNum(config, OtherPath("Landline")).Ok? && GetNum(config, OtherPath("Client Landline")).Ok?
      && (forall i :: 0 <= i < |items| ==> GetNum(config, CategoryPath(items[i])).Ok?)
      && GetNum(config, OtherPath("SIP")).Ok?
  {
    if && GetNum(config, OtherPath("Landline")).Ok? && GetNum(config, OtherPath("Client Landline")).Ok?
       && (forall i :: 0 <= i < |items| ==> GetNum(config, CategoryPath(items[i])).Ok?)
       && GetNum(config, OtherPath("SIP")).Ok?
    {
      forall j | 0 <= j < |cells| ensures cells[j].Num? {
        if j == 0 {
          assert GetPath(config, OtherPath("Landline")) == Ok(cells[0]);
        } else if j == 1 {
          assert GetPath(config, OtherPath("Client Landline")) == Ok(cells[1]);
        } else if j < |items| + 2 {
          assert GetPath(config, CategoryPath(items[j - 2])) == Ok(cells[j]);
        } else {
          assert GetPath(config, OtherPath("SIP")) == Ok(cells[j]);
        }
      }
    }
    if Numbers(cells).Ok? {
      forall i | 0 <= i < |items| ensures GetNum(config, CategoryPath(items[i])).Ok? {
        assert cells[i + 2].Num?;
      }
    }
  }

  /** When they are, the rates are the cells' numbers in column order. */
  lemma EntriesAsRates(config: Tree, items: seq<(Tree, Tree)>, cells: seq<Tree>)
    requires forall i :: 0 <= i < |items| ==> items[i].0.Text? && items[i].1.Text?
    requires SelectedEntries(config, items) == Ok(cells)
    ensures Numbers(cells).Ok? ==>
      var rates := Numbers(cells).value;
      && |rates| == |items| + 3
      && GetNum(config, OtherPath("Landline")) == Ok(rates[0])
      && GetNum(config, OtherPath("Client Landline")) == Ok(rates[1])
      && (forall i :: 0 <= i < |items| ==> GetNum(config, CategoryPath(items[i])) == Ok(rates[i + 2]))
      && GetNum(config, OtherPath("SIP")) == Ok(rates[|items| + 2])
  {
    if Numbers(cells).Ok? {
      var rates := Numbers(cells).value;
      forall i | 0 <= i < |items| ensures GetNum(config, CategoryPath(items[i])) == Ok(rates[i + 2]) {
        assert GetPath(config, CategoryPath(items[i])) == Ok(cells[i + 2]);
        assert cells[i + 2] == Num(rates[i + 2]);
      }
    }
  }

  function ServiceLabels(items: seq<(Tree, Tree)>): (r: seq<string>)
    requires forall i :: 0 <= i < |items| ==> items[i].1.Text?
    ensures |r| == |items| + 3
    ensures r[0] == "Landline" && r[1] == "Client Landline" && r[|items| + 2] == "SIP"
  {
    ["Landline", "Client Landline"] + seq(|items|, i requires 0 <= i < |items| => items[i].1.s) + ["SIP"]
  }

  /** The cost table for given rates and a month length. */
  function CostTable(labels: seq<string>, rates: seq<real>, agents: int, callsPerDay: real,
                     duration: real, days: real): (r: seq<ServiceCost>)
    requires |labels| == |rates|
    ensures |r| == |rates|
    ensures forall i :: 0 <= i < |rates| ==>
      r[i].service == labels[i] && r[i].perMinute == rates[i] &&
      r[i].monthly == rates[i] * (agents as real * callsPerDay * duration) * days
  {
    seq(|rates|, i requires 0 <= i < |rates| =>
      var daily := rates[i] * agents as real * callsPerDay * duration;
      ServiceCost(labels[i], rates[i], daily, daily * days))
  }

  /**
   * `calculate_costs` as written: after validation and the lookups it reaches
   * `DAYS_PER_MONTH`, a name this file never defines.
   */
  function CalculateCostsAsWritten(config: Tree, agents: int, callsPerDay: real, duration: real,
                                   selected: Selection): (r: Result<seq<ServiceCost>>)
    ensures r.Err?
  {
    if !ValidSelection(selected) then Err(ValueError)
    else
      var _ :- SelectedRates(config, selected.items);
      Err(NameError("DAYS_PER_MONTH"))
  }

  /** As written it never returns a table: an invalid argument, a failed lookup or the undefined name. */
  lemma CalculateCostsAsWrittenFails(config: Tree, agents: int, callsPerDay: real, duration: real, selected: Selection)
    ensures CalculateCostsAsWritten(config, agents, callsPerDay, duration, selected).Err?
    ensures !ValidSelection(selected) ==>
              CalculateCostsAsWritten(config, agents, callsPerDay, duration, selected) == Err(ValueError)
    ensures ValidSelection(selected) && SelectedRates(config, selected.items).Ok? ==>
              CalculateCostsAsWritten(config, agents, callsPerDay, duration, selected) == Err(NameError("DAYS_PER_MONTH"))
  {
  }

  /** The default configuration has no `service_costs.other`, so even the first lookup fails, whatever is selected. */
  lemma DefaultConfigHasNoOtherCosts(dates: seq<string>, items: seq<(Tree, Tree)>)
    requires forall i :: 0 <= i < |items| ==> items[i].0.Text? && items[i].1.Text?
    ensures SelectedRates(Defaults.DefaultConfig(dates), items) == Err(KeyError("other"))
  {
    var t := Defaults.DefaultConfig(dates);
    var costs := Defaults.ServiceCostDefaults();
    assert Get(t, "service_costs") == Ok(costs);
    assert "other" !in costs.children;
    assert Get(costs, "other") == Err(KeyError("other"));
    assert GetPath(costs, ["other", "Landline"]) == Err(KeyError("other"));
    assert GetPath(t, OtherPath("Landline")) == GetPath(costs, ["other", "Landline"]);
    assert SelectedEntries(t, items) == Err(KeyError("other"));
  }

  /** `calculate_costs` with the month length the rest of the dashboard uses. */
  function CalculateCostsCorrected(config: Tree, agents: int, callsPerDay: real, duration: real,
                                   selected: Selection): (r: Result<seq<ServiceCost>>)
    ensures !ValidSelection(selected) ==> r == Err(ValueError)
    ensures ValidSelection(selected) ==> (r.Ok? <==> SelectedRates(config, selected.items).Ok?)
    ensures r.Ok? ==> ValidSelection(selected) && SelectedRates(config, selected.items).Ok?
    ensures r.Ok? ==>
      var rates := SelectedRates(config, selected.items).value;
      && |r.value| == |selected.items| + 3
      && r.value[0].service == "Landline" && r.value[1].service == "Client Landline"
      && r.value[|r.value| - 1].service == "SIP"
      && forall i :: 0 <= i < |r.value| ==>
           r.value[i].perMinute == rates[i]
  {
    if !ValidSelection(selected) then Err(ValueError)
    else
      var rates :- SelectedRates(config, selected.items);
      CorrectedTable(selected.items, rates, agents, callsPerDay, duration);
      Ok(CostTable(ServiceLabels(selected.items), rates, agents, callsPerDay, duration, FinancialOverview.DaysPerMonth))
  }

  /** Over a 30-day month, each row of the corrected table costs its rate times the month's minutes. */
  lemma CorrectedMonthlyCosts(config: Tree, agents: int, callsPerDay: real, duration: real, selected: Selection,
                              r: seq<ServiceCost>)
    requires CalculateCostsCorrected(config, agents, callsPerDay, duration, selected) == Ok(r)
    ensures forall i :: 0 <= i < |r| ==>
      r[i].monthly == r[i].perMinute * FinancialOverview.TotalMinutesPerMonth(agents, callsPerDay, duration)
  {
    CorrectedIsTable(config, agents, callsPerDay, duration, selected);
    TableMonthlyIsMinutes(r, ServiceLabels(selected.items), SelectedRates(config, selected.items).value,
                          agents, callsPerDay, duration);
  }

  lemma CorrectedIsTable(config: Tree, agents: int, callsPerDay: real, duration: real, selected: Selection)
    requires CalculateCostsCorrected(config, agents, callsPerDay, duration, selected).Ok?
    ensures ValidSelection(selected) && SelectedRates(config, selected.items).Ok?
    ensures |SelectedRates(config, selected.items).value| == |selected.items| + 3
    ensures CalculateCostsCorrected(config, agents, callsPerDay, duration, selected).value ==
            CostTable(ServiceLabels(selected.items), SelectedRates(config, selected.items).value,
                      agents, callsPerDay, duration, FinancialOverview.DaysPerMonth)
  {
  }

  /** The corrected table: the labels in column order and each rate. */
  lemma CorrectedTable(items: seq<(Tree, Tree)>, rates: seq<real>, agents: int, callsPerDay: real, duration: real)
    requires forall i :: 0 <= i < |items| ==> items[i].0.Text? && items[i].1.Text?
    requires |rates| == |items| + 3
    ensures var r := CostTable(ServiceLabels(items), rates, agents, callsPerDay, duration, FinancialOverview.DaysPerMonth);
      && |r| == |items| + 3
      && r[0].service == "Landline" && r[1].service == "Client Landline" && r[|r| - 1].service == "SIP"
      && forall i :: 0 <= i < |r| ==> r[i].perMinute == rates[i]
  {
  }

  /** Over a 30-day month each row's monthly cost is its rate times the month's minutes. */
  lemma TableMonthlyIsMinutes(r: seq<ServiceCost>, labels: seq<string>, rates: seq<real>,
                              agents: int, callsPerDay: real, duration: real)
    requires |labels| == |rates|
    requires r == CostTable(labels, rates, agents, callsPerDay, duration, FinancialOverview.DaysPerMonth)
    ensures forall i :: 0 <= i < |r| ==>
      r[i].monthly == r[i].perMinute * FinancialOverview.TotalMinutesPerMonth(agents, callsPerDay, duration)
  {
    var m := agents as real * callsPerDay * duration;
    assert FinancialOverview.TotalMinutesPerMonth(agents, callsPerDay, duration) == m * FinancialOverview.DaysPerMonth;
    forall i | 0 <= i < |r|
      ensures r[i].monthly == r[i].perMinute * FinancialOverview.TotalMinutesPerMonth(agents, callsPerDay, duration)
    {
      assert r[i].monthly == rates[i] * m * FinancialOverview.DaysPerMonth && r[i].perMinute == rates[i];
      assert rates[i] * m * FinancialOverview.DaysPerMonth == rates[i] * (m * FinancialOverview.DaysPerMonth);
    }
  }
}
