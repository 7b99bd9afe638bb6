/**
 * risk_assessment.py: the Monte Carlo profit simulation with its normal draws
 * passed in, and the fixed sensitivity and risk tables.
 */
module RiskAssessment {
  import opened Wrappers
  import opened ConfigTree
  import opened Numeric
  import opened CostEngine
  import FinancialOverview

  /**
   * One trial's standard-normal draws for agents, calls, duration and price.
   * `np.random.normal(loc, scale)` is `loc + scale * z`.
   */
  datatype Draw = Draw(agents: real, calls: real, duration: real, price: real)

  /** Relative standard deviations of the four simulated inputs. */
  const AgentsSpread: real := 0.1
  const CallsSpread: real := 0.2
  const DurationSpread: real := 0.15
  const PriceSpread: real := 0.05

  /** `normal(mean, mean * spread)` evaluated at the draw `z`. */
  function Sample(mean: real, spread: real, z: real): (r: real)
    ensures z == 0.0 ==> r == mean
  {
    mean + mean * spread * z
  }

  /** The per-minute rate as this file sums it: the four service terms, added left to right from 0. */
  function RiskCostPerMinute(config: Tree): (r: Result<real>)
    ensures r.Ok? <==> ReadServiceCosts(config).Ok?
  {
    var c :- ReadServiceCosts(config);
    Ok(Sum(CostTerms(c)))
  }

  /** The four summands of lines 31-39, in order. */
  function CostTerms(c: ServiceCosts): seq<real>
  {
    [c.inputCostPer1k * c.inputTokensPerMinute / 1000.0,
     c.outputCostPer1k * c.outputTokensPerMinute / 1000.0,
     c.sttCostPerMinute,
     c.ttsCostPer1kChars * c.ttsCharsPerMinute / 1000.0]
  }

  /** This file's summed rate is main.py's `calculate_total_cost_per_minute`, failures included. */
  lemma RiskCostPerMinuteAgrees(config: Tree)
    ensures RiskCostPerMinute(config) == CalculateTotalCostPerMinute(config)
  {
    var rc := ReadServiceCosts(config);
    if rc.Ok? {
      var c := rc.value;
      TermsSum(c);
      assert RiskCostPerMinute(config).Ok?;
      assert RiskCostPerMinute(config).value == Sum(CostTerms(c));
      assert CalculateTotalCostPerMinute(config) == Ok(TotalCostPerMinute(c));
    }
  }

  lemma TermsSum(c: ServiceCosts)
    ensures Sum(CostTerms(c)) == TotalCostPerMinute(c)
  {
    var x1 := c.inputCostPer1k * c.inputTokensPerMinute / 1000.0;
    var x2 := c.outputCostPer1k * c.outputTokensPerMinute / 1000.0;
    var x4 := c.ttsCostPer1kChars * c.ttsCharsPerMinute / 1000.0;
    SumOfFour(CostTerms(c));
    assert TotalCostPerMinute(c) == x1 + x2 + c.sttCostPerMinute + x4;
  }

  /** One trial: only the agent sample is truncated; the other three samples are used unrounded. */
  function TrialProfit(numAgents: int, callsPerDay: real, duration: real, price: real,
                       costPerMinute: real, z: Draw): (r: real)
    ensures Trunc(Sample(numAgents as real, AgentsSpread, z.agents)) == 0 ==> r == 0.0
  {
    var agents := Trunc(Sample(numAgents as real, AgentsSpread, z.agents));
    var calls := Sample(callsPerDay, CallsSpread, z.calls);
    var dur := Sample(duration, DurationSpread, z.duration);
    var p := Sample(price, PriceSpread, z.price);
    var revenue := agents as real * calls * p * 30.0;
    var cost := agents as real * calls * dur * costPerMinute * 30.0;
    revenue - cost
  }

  /**
   * What every trial checks before its profit exists, in the order the source
   * meets it: a negative scale makes `np.random.normal` raise ValueError, and
   * the price and the rates are looked up in the configuration.
   */
  function TrialSetup(config: Tree, numAgents: int, callsPerDay: real, duration: real): (r: Result<(real, real)>)
    ensures r.Ok? ==> FinancialOverview.PricePerCall(config) == Ok(r.value.0) && r.value.0 >= 0.0
    ensures r.Ok? ==> CalculateTotalCostPerMinute(config) == Ok(r.value.1)
    ensures r.Ok? <==> numAgents >= 0 && callsPerDay >= 0.0 && duration >= 0.0
                       && FinancialOverview.PricePerCall(config).Ok?
                       && FinancialOverview.PricePerCall(config).value >= 0.0
                       && ReadServiceCosts(config).Ok?
  {
    if numAgents < 0 || callsPerDay < 0.0 || duration < 0.0 then Err(ValueError)
    else
      var price :- FinancialOverview.PricePerCall(config);
      if price < 0.0 then Err(ValueError)
      else
        RiskCostPerMinuteAgrees(config);
        var cpm :- RiskCostPerMinute(config);
        Ok((price, cpm))
  }

  /** The simulation's result: one profit per draw, in draw order; no draws, no lookups. */
  function Simulation(config: Tree, numAgents: int, callsPerDay: real, duration: real,
                      draws: seq<Draw>): (r: Result<seq<real>>)
    ensures draws == [] ==> r == Ok([])
    ensures draws != [] ==> (r.Ok? <==> TrialSetup(config, numAgents, callsPerDay, duration).Ok?)
    ensures r.Ok? ==> |r.value| == |draws|
    ensures r.Ok? && draws != [] ==>
      var s := TrialSetup(config, numAgents, callsPerDay, duration).value;
      forall i :: 0 <= i < |draws| ==>
        r.value[i] == TrialProfit(numAgents, callsPerDay, duration, s.0, s.1, draws[i])
  {
    if draws == [] then Ok([])
    else
      var s :- TrialSetup(config, numAgents, callsPerDay, duration);
      Ok(seq(|draws|, i requires 0 <= i < |draws| =>
        TrialProfit(numAgents, callsPerDay, duration, s.0, s.1, draws[i])))
  }

  /** `monte_carlo_simulation` with `num_simulations == |draws|`: the loop appending one profit per trial. */
  method MonteCarloSimulation(config: Tree, numAgents: int, callsPerDay: real, duration: real,
                              draws: seq<Draw>) returns (r: Result<seq<real>>)
    ensures r == Simulation(config, numAgents, callsPerDay, duration, draws)
  {
    var results: seq<real> := [];
    var i := 0;
    ghost var setup := TrialSetup(config, numAgents, callsPerDay, duration);
    while i < |draws|
      invariant 0 <= i <= |draws| && |results| == i
      invariant i > 0 ==> setup.Ok?
      invariant i > 0 ==> forall k :: 0 <= k < i ==>
        results[k] == TrialProfit(numAgents, callsPerDay, duration, setup.value.0, setup.value.1, draws[k])
    {
      var t := TrialStep(config, numAgents, callsPerDay, duration, draws[i]);
      if t.Err? {
        SimulationFails(config, numAgents, callsPerDay, duration, draws);
        return Err(t.error);
      }
      ProfitsExtend(results, t.value, numAgents, callsPerDay, duration, setup.value.0, setup.value.1, draws, i);
      results := results + [t.value];
      i := i + 1;
    }
    if draws != [] {
      SimulationOfProfits(config, numAgents, callsPerDay, duration, draws, results);
    }
    return Ok(results);
  }

  /** Appending draw `i`'s profit keeps the results the trial profits of the draws so far. */
  lemma ProfitsExtend(results: seq<real>, x: real, numAgents: int, callsPerDay: real, duration: real,
                      price: real, cpm: real, draws: seq<Draw>, i: int)
    requires 0 <= i < |draws| && |results| == i
    requires forall k :: 0 <= k < i ==> results[k] == TrialProfit(numAgents, callsPerDay, duration, price, cpm, draws[k])
    requires x == TrialProfit(numAgents, callsPerDay, duration, price, cpm, draws[i])
    ensures forall k :: 0 <= k < i + 1 ==>
      (results + [x])[k] == TrialProfit(numAgents, callsPerDay, duration, price, cpm, draws[k])
  {
  }

  /** One pass of the trial loop: the checks every trial meets, then that trial's profit. */
  method TrialStep(config: Tree, numAgents: int, callsPerDay: real, duration: real, z: Draw)
    returns (r: Result<real>)
    ensures var s := TrialSetup(config, numAgents, callsPerDay, duration);
      && (s.Err? ==> r == Err(s.error))
      && (s.Ok? ==> r == Ok(TrialProfit(numAgents, callsPerDay, duration, s.value.0, s.value.1, z)))
  {
    SetupErrors(config, numAgents, callsPerDay, duration);
    if numAgents < 0 || callsPerDay < 0.0 || duration < 0.0 {
      return Err(ValueError);
    }
    var price := FinancialOverview.PricePerCall(config);
    if price.Err? {
      return Err(price.error);
    }
    if price.value < 0.0 {
      return Err(ValueError);
    }
    var cpm := RiskCostPerMinute(config);
    if cpm.Err? {
      return Err(cpm.error);
    }
    SetupFound(config, numAgents, callsPerDay, duration, price.value, cpm.value);
    var profit := Trial(numAgents, callsPerDay, duration, price.value, cpm.value, z);
    return Ok(profit);
  }

  /** Each check of a trial that fails gives the setup that check's error. */
  lemma SetupErrors(config: Tree, numAgents: int, callsPerDay: real, duration: real)
    ensures var s := TrialSetup(config, numAgents, callsPerDay, duration);
      var price := FinancialOverview.PricePerCall(config);
      var ok := numAgents >= 0 && callsPerDay >= 0.0 && duration >= 0.0;
      && (!ok ==> s == Err(ValueError))
      && (ok && price.Err? ==> s == Err(price.error))
      && (ok && price.Ok? && price.value < 0.0 ==> s == Err(ValueError))
      && (ok && price.Ok? && price.value >= 0.0 && RiskCostPerMinute(config).Err? ==>
            s == Err(RiskCostPerMinute(config).error))
  {
  }

  /** A failed setup fails the whole simulation with its error, as soon as there is a trial. */
  lemma SimulationFails(config: Tree, numAgents: int, callsPerDay: real, duration: real, draws: seq<Draw>)
    requires draws != [] && TrialSetup(config, numAgents, callsPerDay, duration).Err?
    ensures Simulation(config, numAgents, callsPerDay, duration, draws) ==
            Err(TrialSetup(config, numAgents, callsPerDay, duration).error)
  {
  }

  /** Profits that are, draw by draw, the trial profits of a successful setup are the simulation's result. */
  lemma SimulationOfProfits(config: Tree, numAgents: int, callsPerDay: real, duration: real, draws: seq<Draw>,
                            results: seq<real>)
    requires draws != [] && TrialSetup(config, numAgents, callsPerDay, duration).Ok?
    requires |results| == |draws|
    requires var s := TrialSetup(config, numAgents, callsPerDay, duration).value;
      forall k :: 0 <= k < |draws| ==> results[k] == TrialProfit(numAgents, callsPerDay, duration, s.0, s.1, draws[k])
    ensures Simulation(config, numAgents, callsPerDay, duration, draws) == Ok(results)
  {
    var sim := Simulation(config, numAgents, callsPerDay, duration, draws);
    assert sim.value == results;
  }

  /** With every check passed, the trial setup holds the price and the per-minute cost looked up. */
  lemma SetupFound(config: Tree, numAgents: int, callsPerDay: real, duration: real, price: real, cpm: real)
    requires numAgents >= 0 && callsPerDay >= 0.0 && duration >= 0.0
    requires FinancialOverview.PricePerCall(config) == Ok(price) && price >= 0.0
    requires RiskCostPerMinute(config) == Ok(cpm)
    ensures TrialSetup(config, numAgents, callsPerDay, duration) == Ok((price, cpm))
  {
    RiskCostPerMinuteAgrees(config);
  }

  /** Once the setup succeeds, the simulation's entry for draw `i` is that draw's trial profit. */
  lemma SimulationStep(config: Tree, numAgents: int, callsPerDay: real, duration: real, draws: seq<Draw>,
                       i: int, price: real, cpm: real)
    requires 0 <= i < |draws|
    requires TrialSetup(config, numAgents, callsPerDay, duration) == Ok((price, cpm))
    ensures var sim := Simulation(config, numAgents, callsPerDay, duration, draws);
      && sim.Ok? && |sim.value| == |draws|
      && sim.value[i] == TrialProfit(numAgents, callsPerDay, duration, price, cpm, draws[i])
  {
  }

  /** One pass of the trial loop: the four samples, the revenue and the cost of the trial. */
  method Trial(numAgents: int, callsPerDay: real, duration: real, price: real, costPerMinute: real, z: Draw)
    returns (profit: real)
    ensures profit == TrialProfit(numAgents, callsPerDay, duration, price, costPerMinute, z)
  {
    var agents := Trunc(Sample(numAgents as real, AgentsSpread, z.agents));
    var calls := Sample(callsPerDay, CallsSpread, z.calls);
    var dur := Sample(duration, DurationSpread, z.duration);
    var p := Sample(price, PriceSpread, z.price);
    var revenue := agents as real * calls * p * 30.0;
    var cost := agents as real * calls * dur * costPerMinute * 30.0;
    TrialMatches(numAgents, callsPerDay, duration, price, costPerMinute, z, agents, calls, dur, p, revenue, cost);
    profit := revenue - cost;
  }

  lemma TrialMatches(numAgents: int, callsPerDay: real, duration: real, price: real, costPerMinute: real, z: Draw,
                     agents: int, calls: real, dur: real, p: real, revenue: real, cost: real)
    requires agents == Trunc(Sample(numAgents as real, AgentsSpread, z.agents))
    requires calls == Sample(callsPerDay, CallsSpread, z.calls)
    requires dur == Sample(duration, DurationSpread, z.duration)
    requires p == Sample(price, PriceSpread, z.price)
    requires revenue == agents as real * calls * p * 30.0
    requires cost == agents as real * calls * dur * costPerMinute * 30.0
    ensures revenue - cost == TrialProfit(numAgents, callsPerDay, duration, price, costPerMinute, z)
  {
  }

  /** A trial's profit factors as `30 * agents * calls * (price - duration * cpm)` over its samples. */
  lemma TrialProfitFactors(numAgents: int, callsPerDay: real, duration: real, price: real,
                           costPerMinute: real, z: Draw)
    ensures var a := Trunc(Sample(numAgents as real, AgentsSpread, z.agents)) as real;
            var c := Sample(callsPerDay, CallsSpread, z.calls);
            var d := Sample(duration, DurationSpread, z.duration);
            var p := Sample(price, PriceSpread, z.price);
            TrialProfit(numAgents, callsPerDay, duration, price, costPerMinute, z) ==
            30.0 * (a * c) * (p - d * costPerMinute)
  {
    var a := Trunc(Sample(numAgents as real, AgentsSpread, z.agents)) as real;
    var c := Sample(callsPerDay, CallsSpread, z.calls);
    var d := Sample(duration, DurationSpread, z.duration);
    var p := Sample(price, PriceSpread, z.price);
    Factor(a, c, p, d, costPerMinute);
  }

  lemma Factor(a: real, c: real, p: real, d: real, k: real)
    ensures a * c * p * 30.0 - a * c * d * k * 30.0 == 30.0 * (a * c) * (p - d * k)
  {
  }

  /**
   * Samples are not clamped, so a trial's profit has the sign of
   * `agents * calls` times the sign of `price - duration * cpm`.
   */
  lemma TrialProfitSign(numAgents: int, callsPerDay: real, duration: real, price: real,
                        costPerMinute: real, z: Draw)
    ensures var a := Trunc(Sample(numAgents as real, AgentsSpread, z.agents)) as real;
            var c := Sample(callsPerDay, CallsSpread, z.calls);
            var d := Sample(duration, DurationSpread, z.duration);
            var p := Sample(price, PriceSpread, z.price);
            Sign(TrialProfit(numAgents, callsPerDay, duration, price, costPerMinute, z)) ==
            Sign(a * c) * Sign(p - d * costPerMinute)
  {
    var a := Trunc(Sample(numAgents as real, AgentsSpread, z.agents)) as real;
    var c := Sample(callsPerDay, CallsSpread, z.calls);
    var d := Sample(duration, DurationSpread, z.duration);
    var p := Sample(price, PriceSpread, z.price);
    TrialProfitFactors(numAgents, callsPerDay, duration, price, costPerMinute, z);
    ScaledSign(a * c, p - d * costPerMinute);
  }

  lemma ScaledSign(x: real, y: real)
    ensures Sign(30.0 * x * y) == Sign(x) * Sign(y)
  {
    SignOfProduct(x, y);
    assert 30.0 * x * y == 30.0 * (x * y);
  }

  /** A draw of all zeros samples every input at its mean. */
  const MeanDraw: Draw := Draw(0.0, 0.0, 0.0, 0.0)

  /** At the mean draw a trial's profit is the deterministic monthly profit of the financial overview. */
  lemma MeanDrawIsDeterministic(numAgents: int, callsPerDay: real, duration: real, price: real, costPerMinute: real)
    ensures TrialProfit(numAgents, callsPerDay, duration, price, costPerMinute, MeanDraw) ==
            FinancialOverview.MonthlyRevenue(numAgents, callsPerDay, price)
            - FinancialOverview.TotalMinutesPerMonth(numAgents, callsPerDay, duration) * costPerMinute
  {
    TruncOfInt(numAgents);
    assert Sample(numAgents as real, AgentsSpread, 0.0) == numAgents as real;
    assert Sample(callsPerDay, CallsSpread, 0.0) == callsPerDay;
    assert Sample(duration, DurationSpread, 0.0) == duration;
    assert Sample(price, PriceSpread, 0.0) == price;
    Regroup(numAgents as real, callsPerDay, duration, costPerMinute);
  }

  lemma Regroup(a: real, c: real, d: real, k: real)
    ensures a * c * d * k * 30.0 == a * c * d * 30.0 * k
  {
  }

  /** `np.mean`: the sum over the count; an empty result has no mean. */
  function Mean(s: seq<real>): (r: Option<real>)
    ensures r.Some? <==> |s| > 0
    ensures r.Some? ==> r.value * |s| as real == Sum(s)
  {
    if |s| == 0 then None else Some(Sum(s) / |s| as real)
  }

  lemma {:induction false} SumConstant(s: seq<real>, x: real)
    requires forall i :: 0 <= i < |s| ==> s[i] == x
    ensures Sum(s) == |s| as real * x
  {
    if s != [] {
      SumConstant(s[..|s| - 1], x);
    }
  }

  /** When every draw is the mean draw, the expected profit is the deterministic monthly profit. */
  lemma MeanOfMeanDraws(config: Tree, numAgents: int, callsPerDay: real, duration: real, draws: seq<Draw>,
                        price: real, costPerMinute: real)
    requires draws != [] && forall i :: 0 <= i < |draws| ==> draws[i] == MeanDraw
    requires TrialSetup(config, numAgents, callsPerDay, duration) == Ok((price, costPerMinute))
    ensures Mean(Simulation(config, numAgents, callsPerDay, duration, draws).value) ==
            Some(FinancialOverview.MonthlyRevenue(numAgents, callsPerDay, price)
                 - FinancialOverview.TotalMinutesPerMonth(numAgents, callsPerDay, duration) * costPerMinute)
  {
    var profits := Simulation(config, numAgents, callsPerDay, duration, draws).value;
    var x := TrialProfit(numAgents, callsPerDay, duration, price, costPerMinute, MeanDraw);
    SimulationAtMeanDraws(config, numAgents, callsPerDay, duration, draws, price, costPerMinute);
    MeanDrawIsDeterministic(numAgents, callsPerDay, duration, price, costPerMinute);
    MeanOfConstantSeq(profits, x);
  }

  /** When every draw is the mean draw, every trial has the same profit. */
  lemma SimulationAtMeanDraws(config: Tree, numAgents: int, callsPerDay: real, duration: real, draws: seq<Draw>,
                              price: real, costPerMinute: real)
    requires draws != [] && forall i :: 0 <= i < |draws| ==> draws[i] == MeanDraw
    requires TrialSetup(config, numAgents, callsPerDay, duration) == Ok((price, costPerMinute))
    ensures var sim := Simulation(config, numAgents, callsPerDay, duration, draws);
      && sim.Ok? && sim.value != []
      && forall i :: 0 <= i < |sim.value| ==>
           sim.value[i] == TrialProfit(numAgents, callsPerDay, duration, price, costPerMinute, MeanDraw)
  {
    var sim := Simulation(config, numAgents, callsPerDay, duration, draws);
    SimulationStep(config, numAgents, callsPerDay, duration, draws, 0, price, costPerMinute);
    forall i | 0 <= i < |sim.value|
      ensures sim.value[i] == TrialProfit(numAgents, callsPerDay, duration, price, costPerMinute, MeanDraw)
    {
      SimulationStep(config, numAgents, callsPerDay, duration, draws, i, price, costPerMinute);
    }
  }

  lemma MeanOfConstantSeq(s: seq<real>, x: real)
    requires s != [] && forall i :: 0 <= i < |s| ==> s[i] == x
    ensures Mean(s) == Some(x)
  {
    SumConstant(s, x);
    MeanOfConstant(Sum(s), |s| as real, x);
  }

  lemma MeanOfConstant(total: real, n: real, x: real)
    requires n > 0.0 && total == n * x
    ensures total / n == x
  {
  }

  // ---------------------------------------------------------------------------
  // The fixed tables of the page.

  const SensitivityVariables: seq<string> := ["Number of Agents", "Calls per Day", "Call Duration", "Price per Call"]
  const SensitivityImpacts: seq<real> := [0.2, 0.3, 0.25, 0.15]

  const Risks: seq<string> := ["Technology Failure", "Data Privacy Breach", "Regulatory Changes",
                               "Market Competition", "Economic Downturn", "Talent Shortage"]
  const RiskLikelihood: seq<real> := [0.2, 0.15, 0.3, 0.4, 0.25, 0.35]
  const RiskImpact: seq<real> := [0.8, 0.9, 0.6, 0.5, 0.7, 0.4]

  /** The tornado chart pairs each of its 4 variables with one impact; the heatmap each of its 6 risks with one likelihood and one impact. */
  lemma TablesAligned()
    ensures |SensitivityVariables| == |SensitivityImpacts| == 4
    ensures |Risks| == |RiskLikelihood| == |RiskImpact| == 6
  {
  }
}
