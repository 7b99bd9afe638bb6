/**
 * financial_overview.py: the monthly cost breakdown, revenue, profit, margin,
 * per-call figures, break-even volume, the one-year profit trend and the
 * cost-per-minute shares.
 */
module FinancialOverview {
  import opened Wrappers
  import opened ConfigTree
  import opened Numeric
  import opened CostEngine

  /** The fixed 30-day month every panel uses. */
  const DaysPerMonth: real := 30.0

  function TotalMinutesPerMonth(agents: int, callsPerDay: real, duration: real): real
  {
    agents as real * callsPerDay * duration * DaysPerMonth
  }

  datatype CostLine = CostLine(service: string, monthlyCost: real)

  const ServiceNames: seq<string> := ["Text Generation", "Audio Recognition", "Audio Generation"]

  /** The three per-minute rates, in the order of the breakdown. */
  function PerMinuteRates(c: ServiceCosts): (r: seq<real>)
    ensures |r| == 3 && Sum(r) == TotalCostPerMinute(c)
  {
    Sum3(TextGenerationCost(c), AudioRecognitionCost(c), AudioGenerationCost(c));
    [TextGenerationCost(c), AudioRecognitionCost(c), AudioGenerationCost(c)]
  }

  /** The dict built by `calculate_costs`: each service's rate times the month's call minutes. */
  function Breakdown(c: ServiceCosts, agents: int, callsPerDay: real, duration: real): (r: seq<CostLine>)
    ensures |r| == 3
    ensures forall i :: 0 <= i < 3 ==> r[i].service == ServiceNames[i]
    ensures forall i :: 0 <= i < 3 ==>
      r[i].monthlyCost == PerMinuteRates(c)[i] * TotalMinutesPerMonth(agents, callsPerDay, duration)
  {
    var minutes := TotalMinutesPerMonth(agents, callsPerDay, duration);
    var rates := PerMinuteRates(c);
    seq(3, i requires 0 <= i < 3 => CostLine(ServiceNames[i], rates[i] * minutes))
  }

  /**
   * The seven rates in this file's evaluation order: as in main.py both
   * operands of a product are looked up before the product, but here the STT
   * rate is multiplied by the minutes as soon as it is read, before the TTS
   * lookups. They succeed exactly when main.py's reading does, with the same rates.
   */
  function ReadBreakdownRates(config: Tree): (r: Result<ServiceCosts>)
    ensures r.Ok? <==> ReadServiceCosts(config).Ok?
    ensures r.Ok? ==> r == ReadServiceCosts(config)
  {
    var inCost :- GetPath(config, InputCostPath);
    var inTokens :- GetPath(config, InputTokensPath);
    var input :- Factors(inCost, inTokens);
    var outCost :- GetPath(config, OutputCostPath);
    var outTokens :- GetPath(config, OutputTokensPath);
    var output :- Factors(outCost, outTokens);
    var stt :- GetPath(config, SttCostPath);
    var sttRate :- AsNumber(stt);
    var ttsCost :- GetPath(config, TtsCostPath);
    var ttsChars :- GetPath(config, TtsCharsPath);
    var tts :- Factors(ttsCost, ttsChars);
    Ok(ServiceCosts(input.0, input.1, output.0, output.1, sttRate, tts.0, tts.1))
  }

  /**
   * The two orders differ only in the error: with a non-number STT rate and no
   * `audio_generation` record, this file fails on the STT product while
   * main.py fails on the missing key.
   */
  lemma SttProductComesFirst()
    ensures var tokens := Node(map["cost_per_1k_tokens" := Num(1.0), "tokens_per_minute" := Num(1.0)]);
            var text := Node(map["input" := tokens, "output" := tokens]);
            var recognition := Node(map["deepgram_nova2" := Node(map["cost_per_minute" := Text("x")])]);
            var t := Node(map["service_costs" := Node(map["text_generation" := text, "audio_recognition" := recognition])]);
      && ReadBreakdownRates(t) == Err(TypeError)
      && ReadServiceCosts(t) == Err(KeyError("audio_generation"))
  {
    var tokens := Node(map["cost_per_1k_tokens" := Num(1.0), "tokens_per_minute" := Num(1.0)]);
    var text := Node(map["input" := tokens, "output" := tokens]);
    var recognition := Node(map["deepgram_nova2" := Node(map["cost_per_minute" := Text("x")])]);
    var costs := Node(map["text_generation" := text, "audio_recognition" := recognition]);
    var t := Node(map["service_costs" := costs]);
    assert GetPath(tokens, ["cost_per_1k_tokens"]) == Ok(Num(1.0));
    assert GetPath(tokens, ["tokens_per_minute"]) == Ok(Num(1.0));
    assert GetPath(t, InputCostPath) == Ok(Num(1.0));
    assert GetPath(t, InputTokensPath) == Ok(Num(1.0));
    assert GetPath(t, OutputCostPath) == Ok(Num(1.0));
    assert GetPath(t, OutputTokensPath) == Ok(Num(1.0));
    assert GetPath(recognition, ["deepgram_nova2", "cost_per_minute"]) == Ok(Text("x"));
    assert GetPath(t, SttCostPath) == Ok(Text("x"));
    assert Get(costs, "audio_generation") == Err(KeyError("audio_generation"));
    assert GetPath(t, TtsCostPath) == Err(KeyError("audio_generation"));
  }

  /** `calculate_costs`: reading the rates can fail; the `total_cost_per_minute` argument is never used. */
  function CalculateCosts(config: Tree, agents: int, callsPerDay: real, duration: real): (r: Result<seq<CostLine>>)
    ensures r.Ok? <==> ReadServiceCosts(config).Ok?
    ensures r.Ok? ==> r.value == Breakdown(ReadServiceCosts(config).value, agents, callsPerDay, duration)
    ensures r.Err? ==> r.error == ReadBreakdownRates(config).error
  {
    var c :- ReadBreakdownRates(config);
    Ok(Breakdown(c, agents, callsPerDay, duration))
  }

  function MonthlyCosts(lines: seq<CostLine>): seq<real>
  {
    seq(|lines|, i requires 0 <= i < |lines| => lines[i].monthlyCost)
  }

  /** `df_costs["Monthly Cost ($)"].sum()`. */
  function TotalMonthlyCost(lines: seq<CostLine>): (r: real)
    ensures lines == [] ==> r == 0.0
    ensures (forall i :: 0 <= i < |lines| ==> lines[i].monthlyCost >= 0.0) ==> r >= 0.0
  {
    SumNonNegative(MonthlyCosts(lines));
    Sum(MonthlyCosts(lines))
  }

  lemma {:induction false} SumNonNegative(s: seq<real>)
    ensures (forall i :: 0 <= i < |s| ==> s[i] >= 0.0) ==> Sum(s) >= 0.0
  {
    if s != [] {
      SumNonNegative(s[..|s| - 1]);
      if forall i :: 0 <= i < |s| ==> s[i] >= 0.0 {
        assert forall i :: 0 <= i < |s| - 1 ==> s[..|s| - 1][i] == s[i];
      }
    }
  }

  /**
   * The summed breakdown (line 67) is the month's minutes times the per-minute
   * total, i.e. the `total_cost` of line 15 when main.py computed the rate.
   */
  lemma BreakdownSumsToTotal(c: ServiceCosts, agents: int, callsPerDay: real, duration: real)
    ensures TotalMonthlyCost(Breakdown(c, agents, callsPerDay, duration)) ==
            TotalMinutesPerMonth(agents, callsPerDay, duration) * TotalCostPerMinute(c)
  {
    var b := Breakdown(c, agents, callsPerDay, duration);
    var m := TotalMinutesPerMonth(agents, callsPerDay, duration);
    var s := MonthlyCosts(b);
    var x, y, z := TextGenerationCost(c), AudioRecognitionCost(c), AudioGenerationCost(c);
    assert |s| == 3 && s[0] == x * m && s[1] == y * m && s[2] == z * m;
    assert s == [x * m, y * m, z * m];
    Sum3(x * m, y * m, z * m);
    assert x * m + y * m + z * m == m * (x + y + z);
  }

  /** Monthly revenue: every agent's calls at the configured price, for 30 days. */
  function MonthlyRevenue(agents: int, callsPerDay: real, price: real): (r: real)
    ensures price == 0.0 ==> r == 0.0
    ensures agents >= 0 && callsPerDay >= 0.0 && price >= 0.0 ==> r >= 0.0
  {
    assert agents >= 0 && callsPerDay >= 0.0 ==> agents as real * callsPerDay >= 0.0;
    assert agents >= 0 && callsPerDay >= 0.0 && price >= 0.0 ==> agents as real * callsPerDay * price >= 0.0;
    agents as real * callsPerDay * price * DaysPerMonth
  }

  function PricePerCall(config: Tree): Result<real>
  {
    GetNum(config, ["financial_metrics", "price_per_call"])
  }

  /** `calculate_revenue` of financial_overview.py, and the identical one in forecast_trends.py. */
  function CalculateRevenue(config: Tree, agents: int, callsPerDay: real): (r: Result<real>)
    ensures r.Ok? <==> PricePerCall(config).Ok?
    ensures r.Ok? ==> r.value == MonthlyRevenue(agents, callsPerDay, PricePerCall(config).value)
  {
    var price :- PricePerCall(config);
    Ok(MonthlyRevenue(agents, callsPerDay, price))
  }

  /** Revenue is linear: twice the agents or twice the calls give twice the revenue; no agents, no revenue. */
  lemma RevenueLinear(agents: int, callsPerDay: real, price: real)
    ensures MonthlyRevenue(2 * agents, callsPerDay, price) == 2.0 * MonthlyRevenue(agents, callsPerDay, price)
    ensures MonthlyRevenue(agents, 2.0 * callsPerDay, price) == 2.0 * MonthlyRevenue(agents, callsPerDay, price)
    ensures MonthlyRevenue(0, callsPerDay, price) == 0.0 && MonthlyRevenue(agents, 0.0, price) == 0.0
  {
  }

  /** `(profit / revenue) * 100 if revenue > 0 else 0`: never divides by zero. */
  function ProfitMargin(revenue: real, cost: real): (m: real)
    ensures revenue <= 0.0 ==> m == 0.0
    ensures revenue > 0.0 ==> m * revenue == (revenue - cost) * 100.0
    ensures revenue > 0.0 && cost >= 0.0 ==> m <= 100.0
    ensures revenue > 0.0 ==> (m >= 0.0 <==> cost <= revenue)
  {
    if revenue > 0.0 then (revenue - cost) / revenue * 100.0 else 0.0
  }

  /**
   * `int(total_monthly_cost / price_per_call)`. The total is a numpy float, so a zero
   * price gives an infinite quotient (OverflowError in `int`) or, at zero cost, NaN
   * (ValueError) rather than ZeroDivisionError.
   */
  function BreakEvenCalls(totalCost: real, price: real): (r: Result<int>)
    ensures r.Ok? <==> price != 0.0
    ensures price == 0.0 ==> r == Err(if totalCost == 0.0 then ValueError else OverflowError)
    ensures r.Ok? && price > 0.0 && totalCost >= 0.0 ==>
              r.value >= 0 && r.value as real * price <= totalCost < r.value as real * price + price
  {
    if price == 0.0 then Err(if totalCost == 0.0 then ValueError else OverflowError)
    else
      var n := Trunc(totalCost / price);
      assert price > 0.0 && totalCost >= 0.0 ==>
               n as real * price <= totalCost < n as real * price + price by {
        if price > 0.0 && totalCost >= 0.0 { BreakEvenBounds(totalCost, price); }
      }
      Ok(n)
  }

  lemma BreakEvenBounds(totalCost: real, price: real)
    requires price > 0.0 && totalCost >= 0.0
    ensures var n := Trunc(totalCost / price);
            n >= 0 && n as real * price <= totalCost < n as real * price + price
  {
    var q := totalCost / price;
    DivPositive(totalCost, price);
    var n := Trunc(q);
    ScaledFloorBounds(q, n as real, price, totalCost);
  }

  lemma ScaledFloorBounds(q: real, n: real, p: real, t: real)
    requires p > 0.0 && q * p == t && n <= q < n + 1.0
    ensures n * p <= t < n * p + p
  {
    ScaledFloorUpper(q, n, p, t);
    MulLe(n, q, p);
  }

  lemma ScaledFloorUpper(q: real, n: real, p: real, t: real)
    requires p > 0.0 && q * p == t && q < n + 1.0
    ensures t < n * p + p
  {
    MulLt(q - n, 1.0, p);
    assert (q - n) * p == t - n * p;
  }

  lemma DivPositive(t: real, p: real)
    requires p > 0.0 && t >= 0.0
    ensures t / p >= 0.0 && t / p * p == t
  {
  }

  lemma BreakEvenExample()
    ensures BreakEvenCalls(5000.0, 1.0) == Ok(5000)
  {
  }

  lemma DivOfMultiple(x: real, d: real, y: real)
    requires d != 0.0 && x == d * y
    ensures x / d == y
  {
  }

  lemma DivTimes(a: real, t: real, k: real)
    requires t != 0.0
    ensures a / t * k == a * (k / t)
  {
  }

  /** Calls handled in a month, the per-call denominator. */
  function CallsPerMonth(agents: int, callsPerDay: real): real
  {
    agents as real * callsPerDay * DaysPerMonth
  }

  /** A monthly figure per call; numpy division by zero gives inf or NaN, modelled as no value. */
  function PerCall(monthly: real, agents: int, callsPerDay: real): (r: Option<real>)
    ensures r.Some? <==> CallsPerMonth(agents, callsPerDay) != 0.0
    ensures r.Some? ==> r.value * CallsPerMonth(agents, callsPerDay) == monthly
  {
    var calls := CallsPerMonth(agents, callsPerDay);
    if calls == 0.0 then None else Some(monthly / calls)
  }

  /**
   * When the monthly cost is the month's minutes at a per-minute rate (as
   * `BreakdownSumsToTotal` shows it is), cost per call is the call's duration
   * times that rate, and profit per call is the price less that cost.
   */
  lemma PerCallMetrics(totalCost: real, agents: int, callsPerDay: real, duration: real, cpm: real, price: real)
    requires agents != 0 && callsPerDay != 0.0
    requires totalCost == TotalMinutesPerMonth(agents, callsPerDay, duration) * cpm
    ensures PerCall(totalCost, agents, callsPerDay) == Some(duration * cpm)
    ensures PerCall(MonthlyRevenue(agents, callsPerDay, price) - totalCost, agents, callsPerDay) ==
            Some(price - duration * cpm)
  {
    var calls := CallsPerMonth(agents, callsPerDay);
    assert calls != 0.0 by {
      assert agents as real != 0.0;
      assert agents as real * callsPerDay != 0.0;
    }
    assert TotalMinutesPerMonth(agents, callsPerDay, duration) == calls * duration;
    assert totalCost == calls * (duration * cpm);
    DivOfMultiple(totalCost, calls, duration * cpm);
    var revenue := MonthlyRevenue(agents, callsPerDay, price);
    assert revenue == calls * price;
    assert revenue - totalCost == calls * (price - duration * cpm);
    DivOfMultiple(revenue - totalCost, calls, price - duration * cpm);
  }

  /** Days in the projected profit trend. */
  const TrendDays: nat := 365

  /** `monthly_profit * (1 + (i / 365) * growth_rate)` for each day of the coming year. */
  function ProfitTrend(profit: real, growthRate: real): (r: seq<real>)
    ensures |r| == TrendDays && r[0] == profit
  {
    seq(TrendDays, i requires 0 <= i < TrendDays => profit * (1.0 + (i as real / 365.0) * growthRate))
  }

  /** The trend is a straight line: it rises by the same amount every day. */
  lemma ProfitTrendLinear(profit: real, growthRate: real, i: nat)
    requires i + 1 < TrendDays
    ensures ProfitTrend(profit, growthRate)[i + 1] - ProfitTrend(profit, growthRate)[i] ==
            profit * growthRate / 365.0
  {
    var t := ProfitTrend(profit, growthRate);
    assert t[i + 1] == profit + profit * growthRate * ((i + 1) as real / 365.0);
    assert t[i] == profit + profit * growthRate * (i as real / 365.0);
  }

  /** Each rate as a percentage of their sum; pandas gives NaN for a zero sum. */
  function Percentages(rates: seq<real>): (r: Option<seq<real>>)
    ensures r.Some? <==> Sum(rates) != 0.0
    ensures r.Some? ==> |r.value| == |rates|
    ensures r.Some? ==> forall i :: 0 <= i < |rates| ==> r.value[i] * Sum(rates) == rates[i] * 100.0
  {
    var total := Sum(rates);
    if total == 0.0 then None
    else Some(seq(|rates|, i requires 0 <= i < |rates| => rates[i] / total * 100.0))
  }

  /** The shares of a non-zero total add up to 100. */
  lemma PercentagesSumTo100(rates: seq<real>)
    requires Sum(rates) != 0.0
    ensures Sum(Percentages(rates).value) == 100.0
  {
    var total := Sum(rates);
    var k := 100.0 / total;
    var p := Percentages(rates).value;
    forall i | 0 <= i < |rates| ensures p[i] == Scaled(rates, k)[i] {
      DivTimes(rates[i], total, 100.0);
    }
    assert p == Scaled(rates, k);
    SumScaled(rates, k);
    DivTimes(total, total, 100.0);
  }
}
