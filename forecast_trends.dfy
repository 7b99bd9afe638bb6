/**
 * forecast_trends.py: this file's `calculate_revenue`, the perturbed revenue
 * history fed to the forecaster, the compounding market-share projection and
 * the KPI growth table. The ARIMA fit itself is not part of this model.
 */
module ForecastTrends {
  import opened Wrappers
  import opened ConfigTree
  import opened Numeric
  import CostEngine
  import FinancialOverview
  import Defaults

  // ---------------------------------------------------------------------------
  // Revenue and the synthetic history.

  /** This file's `calculate_revenue`, with its own `DAYS_PER_MONTH = 30`. */
  function Revenue(agents: int, callsPerDay: real, price: real): real
  {
    agents as real * callsPerDay * price * 30.0
  }

  function CalculateRevenue(config: Tree, agents: int, callsPerDay: real): Result<real>
  {
    var price :- GetNum(config, ["financial_metrics", "price_per_call"]);
    Ok(Revenue(agents, callsPerDay, price))
  }

  /** The forecast page's revenue formula is the financial overview's, failures included. */
  lemma CalculateRevenueAgrees(config: Tree, agents: int, callsPerDay: real)
    ensures CalculateRevenue(config, agents, callsPerDay) == FinancialOverview.CalculateRevenue(config, agents, callsPerDay)
  {
    var price := FinancialOverview.PricePerCall(config);
    if price.Ok? {
      assert Revenue(agents, callsPerDay, price.value) == FinancialOverview.MonthlyRevenue(agents, callsPerDay, price.value);
    }
  }

  /** The history is 24 monthly points. */
  const HistoryPeriods: nat := 24

  /** Each history point is the revenue scaled by `1 + e`, `e` being that month's `normal(0, 0.05)` draw. */
  function SyntheticHistory(config: Tree, agents: int, callsPerDay: real, noise: seq<real>): (r: Result<seq<real>>)
    requires |noise| == HistoryPeriods
    ensures r.Ok? <==> CalculateRevenue(config, agents, callsPerDay).Ok?
    ensures r.Ok? ==> |r.value| == HistoryPeriods
    ensures r.Ok? ==> forall k :: 0 <= k < HistoryPeriods ==>
      r.value[k] == (1.0 + noise[k]) * CalculateRevenue(config, agents, callsPerDay).value
  {
    var base :- CalculateRevenue(config, agents, callsPerDay);
    Ok(Perturbed(base, noise))
  }

  /** The history before scaling by the revenue: `1 + e` per month. */
  function Growths(noise: seq<real>): (r: seq<real>)
    ensures |r| == |noise| && forall k :: 0 <= k < |noise| ==> r[k] == 1.0 + noise[k]
  {
    seq(|noise|, k requires 0 <= k < |noise| => 1.0 + noise[k])
  }

  function Perturbed(base: real, noise: seq<real>): seq<real>
  {
    Scaled(Growths(noise), base)
  }

  /** The growth factors sum to the month count plus the summed draws. */
  lemma {:induction false} GrowthsSum(noise: seq<real>)
    ensures Sum(Growths(noise)) == |noise| as real + Sum(noise)
  {
    if noise != [] {
      var n := |noise|;
      GrowthsSum(noise[..n - 1]);
      assert Growths(noise)[..n - 1] == Growths(noise[..n - 1]);
    }
  }

  /** 24 draws that cancel out leave the total at 24 times the base. */
  lemma BalancedDrawsSum(base: real, noise: seq<real>)
    requires |noise| == HistoryPeriods && Sum(noise) == 0.0
    ensures Sum(Perturbed(base, noise)) == 24.0 * base
  {
    SumScaled(Growths(noise), base);
    GrowthsSum(noise);
    assert Sum(Growths(noise)) == 24.0;
  }

  /** Draws that cancel out leave the history's total at 24 months of revenue. */
  lemma HistoryTotal(config: Tree, agents: int, callsPerDay: real, noise: seq<real>)
    requires |noise| == HistoryPeriods && Sum(noise) == 0.0
    requires CalculateRevenue(config, agents, callsPerDay).Ok?
    ensures Sum(SyntheticHistory(config, agents, callsPerDay, noise).value) ==
            HistoryPeriods as real * CalculateRevenue(config, agents, callsPerDay).value
  {
    var base := CalculateRevenue(config, agents, callsPerDay).value;
    assert SyntheticHistory(config, agents, callsPerDay, noise).value == Perturbed(base, noise);
    BalancedDrawsSum(base, noise);
  }

  // ---------------------------------------------------------------------------
  // Market-share projection.

  const ProjectionPeriods: nat := 12

  /**
   * `[share * (1 + g) ** i for i in range(12)]`, the share read first and the
   * rate in the comprehension; neither is used in arithmetic before both are read.
   */
  function ProjectedMarketShare(config: Tree): (r: Result<seq<real>>)
    ensures r.Ok? <==> GetNum(config, ["market_data", "our_market_share"]).Ok?
                       && GetNum(config, ["financial_metrics", "expected_growth_rate"]).Ok?
    ensures r.Ok? ==> r.value == Projection(GetNum(config, ["market_data", "our_market_share"]).value,
                                            GetNum(config, ["financial_metrics", "expected_growth_rate"]).value)
  {
    var share :- GetPath(config, ["market_data", "our_market_share"]);
    var g :- GetPath(config, ["financial_metrics", "expected_growth_rate"]);
    var f :- Factors(share, g);
    Ok(Projection(f.0, f.1))
  }

  /** Twelve projected months, starting at the current share. */
  function Projection(share: real, g: real): (r: seq<real>)
    ensures |r| == ProjectionPeriods
    ensures r[0] == share
  {
    seq(ProjectionPeriods, i requires 0 <= i < ProjectionPeriods => share * Pow(1.0 + g, i))
  }

  /** Each projected month is the previous one grown by `1 + g`. */
  lemma ProjectionCompounds(share: real, g: real)
    ensures forall i :: 0 < i < ProjectionPeriods ==>
              Projection(share, g)[i] == Projection(share, g)[i - 1] * (1.0 + g)
  {
    forall i | 0 < i < ProjectionPeriods
      ensures Projection(share, g)[i] == Projection(share, g)[i - 1] * (1.0 + g)
    {
      ProjectionStep(share, g, i);
    }
  }

  lemma ProjectionStep(share: real, g: real, i: nat)
    requires 0 < i < ProjectionPeriods
    ensures Projection(share, g)[i] == Projection(share, g)[i - 1] * (1.0 + g)
  {
    var x := Pow(1.0 + g, i - 1);
    assert Projection(share, g)[i - 1] == share * x;
    assert Projection(share, g)[i] == share * ((1.0 + g) * x);
    Reassociate(share, 1.0 + g, x);
  }

  lemma Reassociate(a: real, b: real, c: real)
    ensures a * (b * c) == a * c * b
  {
  }

  /** A non-negative share growing at a non-negative rate never shrinks. */
  lemma ProjectionNonDecreasing(share: real, g: real)
    requires share >= 0.0 && g >= 0.0
    ensures forall i, j :: 0 <= i <= j < ProjectionPeriods ==> Projection(share, g)[i] <= Projection(share, g)[j]
  {
    var p := Projection(share, g);
    forall i, j | 0 <= i <= j < ProjectionPeriods
      ensures p[i] <= p[j]
    {
      PowMonotone(1.0 + g, i, j);
      MulLe(Pow(1.0 + g, i), Pow(1.0 + g, j), share);
    }
  }

  lemma {:induction false} PowMonotone(x: real, i: nat, j: nat)
    requires x >= 1.0 && i <= j
    ensures Pow(x, i) <= Pow(x, j)
    decreases j
  {
    if i < j {
      PowMonotone(x, i, j - 1);
      PowAtLeastOne(x, j - 1);
      MulLe(1.0, x, Pow(x, j - 1));
    }
  }

  /** With the default configuration the projection starts at 15 and grows by 10% a month. */
  lemma DefaultProjection(dates: seq<string>)
    ensures ProjectedMarketShare(Defaults.DefaultConfig(dates)) == Ok(Projection(15.0, 0.1))
  {
    var t := Defaults.DefaultConfig(dates);
    assert GetNum(t, ["market_data", "our_market_share"]) == Ok(15.0);
    assert GetNum(t, ["financial_metrics", "expected_growth_rate"]) == Ok(0.1);
  }

  // ---------------------------------------------------------------------------
  // KPI forecast.

  /** The KPI names, in table order. */
  const Kpis: seq<string> := ["Revenue", "Market Share", "Customer Satisfaction", "Cost per Call"]

  /**
   * The KPI current values as written: the cost KPI reads
   * `service_costs.stt.Deepgram`, a path the configuration never has.
   */
  function KpiCurrentValuesAsWritten(config: Tree, agents: int, callsPerDay: real, duration: real): (r: Result<seq<real>>)
    ensures r.Ok? <==> CalculateRevenue(config, agents, callsPerDay).Ok?
                       && GetNum(config, ["market_data", "our_market_share"]).Ok?
                       && GetNum(config, ["market_data", "our_customer_satisfaction"]).Ok?
                       && GetNum(config, ["service_costs", "stt", "Deepgram"]).Ok?
    ensures r.Ok? ==> |r.value| == |Kpis|
                      && r.value[3] == GetNum(config, ["service_costs", "stt", "Deepgram"]).value * duration
  {
    var revenue :- CalculateRevenue(config, agents, callsPerDay);
    var share :- GetPath(config, ["market_data", "our_market_share"]);
    var satisfaction :- GetPath(config, ["market_data", "our_customer_satisfaction"]);
    var stt :- GetPath(config, ["service_costs", "stt", "Deepgram"]);
    var sttRate :- AsNumber(stt);
    var values :- Factors(share, satisfaction);
    Ok([revenue, values.0, values.1, sttRate * duration])
  }

  /** On the default configuration the KPI table cannot be built: `service_costs` has no `stt`. */
  lemma KpiAsWrittenFailsOnDefaults(dates: seq<string>, agents: int, callsPerDay: real, duration: real)
    ensures KpiCurrentValuesAsWritten(Defaults.DefaultConfig(dates), agents, callsPerDay, duration) ==
            Err(KeyError("stt"))
  {
    var t := Defaults.DefaultConfig(dates);
    var costs := Defaults.ServiceCostDefaults();
    assert Get(t, "service_costs") == Ok(costs);
    assert "stt" !in costs.children;
    assert GetPath(costs, ["stt", "Deepgram"]) == Err(KeyError("stt"));
    assert GetPath(t, ["service_costs", "stt", "Deepgram"]) == GetPath(costs, ["stt", "Deepgram"]);
    assert GetNum(t, ["market_data", "our_market_share"]) == Ok(15.0);
    assert GetNum(t, ["market_data", "our_customer_satisfaction"]) == Ok(4.5);
    assert GetNum(t, ["financial_metrics", "price_per_call"]) == Ok(1.0);
  }

  /**
   * The KPI current values reading the speech-to-text rate where the
   * configuration keeps it. The rate is multiplied by the duration at once;
   * the share and the satisfaction first enter arithmetic in the forecast, so
   * they are checked to be numbers only after every lookup.
   */
  function KpiCurrentValues(config: Tree, agents: int, callsPerDay: real, duration: real): (r: Result<seq<real>>)
    ensures r.Ok? <==> CalculateRevenue(config, agents, callsPerDay).Ok?
                       && GetNum(config, ["market_data", "our_market_share"]).Ok?
                       && GetNum(config, ["market_data", "our_customer_satisfaction"]).Ok?
                       && GetNum(config, CostEngine.SttCostPath).Ok?
    ensures r.Ok? ==> |r.value| == |Kpis|
    ensures r.Ok? ==> CalculateRevenue(config, agents, callsPerDay) == Ok(r.value[0])
    ensures r.Ok? ==> GetNum(config, ["market_data", "our_market_share"]) == Ok(r.value[1])
                      && GetNum(config, ["market_data", "our_customer_satisfaction"]) == Ok(r.value[2])
    ensures r.Ok? ==> GetNum(config, CostEngine.SttCostPath).Ok?
                      && r.value[3] == GetNum(config, CostEngine.SttCostPath).value * duration
  {
    var revenue :- CalculateRevenue(config, agents, callsPerDay);
    var share :- GetPath(config, ["market_data", "our_market_share"]);
    var satisfaction :- GetPath(config, ["market_data", "our_customer_satisfaction"]);
    var stt :- GetPath(config, CostEngine.SttCostPath);
    var sttRate :- AsNumber(stt);
    var values :- Factors(share, satisfaction);
    Ok([revenue, values.0, values.1, sttRate * duration])
  }

  /** With the default configuration the corrected table holds revenue, 15, 4.5 and `0.0036 * duration`. */
  lemma KpiOnDefaults(dates: seq<string>, agents: int, callsPerDay: real, duration: real)
    ensures var r := KpiCurrentValues(Defaults.DefaultConfig(dates), agents, callsPerDay, duration);
      && r.Ok?
      && r.value[0] == FinancialOverview.MonthlyRevenue(agents, callsPerDay, 1.0)
      && r.value[1] == 15.0 && r.value[2] == 4.5
      && r.value[3] == 0.0036 * duration
  {
    Defaults.DefaultScalars(dates);
    CostEngine.DefaultAudioRates(dates);
    KpiOfRates(Defaults.DefaultConfig(dates), agents, callsPerDay, duration, 1.0, 15.0, 4.5, 0.0036);
  }

  /** Once the four inputs are numbers, the table holds the revenue, the share, the satisfaction and the STT charge. */
  lemma KpiOfRates(config: Tree, agents: int, callsPerDay: real, duration: real,
                   price: real, share: real, satisfaction: real, stt: real)
    requires GetNum(config, ["financial_metrics", "price_per_call"]) == Ok(price)
    requires GetNum(config, ["market_data", "our_market_share"]) == Ok(share)
    requires GetNum(config, ["market_data", "our_customer_satisfaction"]) == Ok(satisfaction)
    requires GetNum(config, CostEngine.SttCostPath) == Ok(stt)
    ensures KpiCurrentValues(config, agents, callsPerDay, duration) ==
            Ok([FinancialOverview.MonthlyRevenue(agents, callsPerDay, price), share, satisfaction, stt * duration])
  {
    CalculateRevenueAgrees(config, agents, callsPerDay);
    var r := KpiCurrentValues(config, agents, callsPerDay, duration);
    assert r.Ok?;
    assert r.value[0] == FinancialOverview.MonthlyRevenue(agents, callsPerDay, price);
    assert r.value[1] == share && r.value[2] == satisfaction && r.value[3] == stt * duration;
    assert |r.value| == 4;
    assert r.value == [r.value[0], r.value[1], r.value[2], r.value[3]];
  }

  /** `current * (1 + u)` for the KPI's `uniform(0.05, 0.15)` draw `u`. */
  function KpiForecast(current: real, u: real): (r: real)
    ensures u == 0.0 ==> r == current
    ensures current > 0.0 && u > 0.0 ==> r > current
  {
    current * (1.0 + u)
  }

  /**
   * `(forecast - current) / current * 100`. The current values and the scalar
   * uniform draw are plain Python floats, so a zero current value raises.
   */
  function KpiGrowth(current: real, forecast: real): (r: Result<real>)
    ensures r.Ok? <==> current != 0.0
    ensures r.Err? ==> r.error == ZeroDivisionError
    ensures r.Ok? ==> r.value * current == (forecast - current) * 100.0
  {
    if current == 0.0 then Err(ZeroDivisionError) else Ok((forecast - current) / current * 100.0)
  }

  /** A KPI's growth is `100 u`, so it lies in `[5, 15)` for a draw from `[0.05, 0.15)`. */
  lemma KpiGrowthIsDraw(current: real, u: real)
    requires current != 0.0
    ensures KpiGrowth(current, KpiForecast(current, u)) == Ok(100.0 * u)
    ensures 0.05 <= u < 0.15 ==> 5.0 <= KpiGrowth(current, KpiForecast(current, u)).value < 15.0
  {
    assert KpiForecast(current, u) - current == current * u;
    FinancialOverview.DivOfMultiple(current * u, current, u);
  }
}
