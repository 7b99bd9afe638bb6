# agent_coast dashboard: a verified model of its business arithmetic

agent_coast is a Streamlit dashboard for the economics of an AI voice-agent
call centre. A nested configuration dict holds:

- service rates: LLM tokens, speech-to-text minutes, text-to-speech characters;
- operational averages;
- financial metrics;
- market data.

Each dashboard panel turns that dict and three sliders (agents, calls per
day per agent, mean call duration) into figures:

- per-minute and monthly costs, revenue, profit and margin, break-even volume;
- a scale curve;
- a Monte Carlo profit distribution;
- forecasts;
- a competitive ranking;
- operational metrics;
- per-service performance;
- a service-configuration page that edits the dict and compares providers.

This project models that arithmetic and the two dict updaters in Dafny, and
proves the properties the dashboard relies on.

- **Values.** The configuration dict is the datatype `ConfigTree.Tree`, with
  dicts, numbers, strings and lists. Money, rates and shares are exact `real`s.
- **Errors.** A Python exception the code would raise becomes an `Error` kind
  in a `Result`: `KeyError`, `TypeError`, `AttributeError`,
  `ZeroDivisionError`, `ValueError`, `OverflowError` or `NameError`.
  - A numpy or pandas division by zero gives inf or NaN. It does not raise,
    so it becomes an `Option` with no value.
  - A plain Python float division by zero is `ZeroDivisionError`.
  - Python looks up every operand of an expression before it does the
    arithmetic. So each model reads all the subscripts of a product or a sum
    first, and only then reports a non-number as `TypeError`.
  - A price read as a str is a `TypeError` at the read. In Python,
    `num_agents * calls_per_day * price_per_call` with int operands repeats
    the string, and the `TypeError` comes only at a later step: the
    `revenue - cost` of financial_overview.py:69, or the noise factor of
    forecast_trends.py:16-17. The model raises the same kind earlier.
  - Subscripting a dict with an integer looks up that integer key. Its
    `KeyError` names the key as written, e.g. `KeyError("1")`.
- **Integer conversion.** Python's `int(x)` truncates toward zero. It is
  `Numeric.Trunc`, which is not the floor for negative `x`.
- **Random draws.** Every draw becomes a parameter:
  - Monte Carlo takes standard-normal values `z` and uses `mean + sd * z`;
  - history noise, jitter, KPI draws and per-service accuracy and latency are
    passed in directly.
- **Shared cost engine.** `CostEngine` holds the per-minute cost of main.py.
  Each panel that repeats the formula has a lemma saying its copy equals it.
- **State.** State that the source mutates in place is a class:
  - `ConfigTree.ConfigDict` walks a key path with `setdefault` and assigns;
  - `ServiceConfiguration.Session` holds the session-state entries of the
    configuration page.
  
  Each method is proved against a pure function of the old state.
- **Loops.** Loops that append rows are methods with loop invariants, each
  proved equal to a function:
  - the scale curve;
  - the Monte Carlo trials;
  - the historical metrics;
  - the performance series;
  - the savings loop.

Modules, one per source file: `Wrappers`, `Numeric`, `ConfigTree`, `Defaults`
(the default configuration literal of main.py), `CostEngine`,
`FinancialOverview`, `ScalabilityAnalysis`, `RiskAssessment`,
`ForecastTrends`, `MarketPosition`, `ServiceConfiguration`,
`OperationalMetrics`, `ServicePerformance`.

## Model

| member | source | states |
|---|---|---|
| ConfigTree.Get | main.py:116-117 | a dict lookup succeeds exactly when the key is present, and returns its value |
| ConfigTree.GetNum | main.py:182-188 | reading a number succeeds exactly when the path exists and ends in a number |
| ConfigTree.GetOr | service_configuration.py:10-16 | `dict.get(k, default)` gives the entry when present and the default otherwise; a non-dict raises |
| ConfigTree.GetPath | main.py:182-188 | a chain of subscripts: no keys gives the tree itself, and a failure is a TypeError or a KeyError naming a key of the path |
| ConfigTree.AsNumber | main.py:182-189 | a value entering arithmetic: it succeeds exactly on a number, and anything else is a TypeError |
| ConfigTree.Factors | main.py:182-183 | the two operands of a product, checked only after both were looked up: they succeed exactly when both are numbers |
| ConfigTree.SetPath | main.py:114-117 | the functional `update_nested_dict`: a success is a dict, and a failure is a TypeError or an AttributeError, never a KeyError, since missing levels are created |
| ConfigTree.SetPathOkIff | main.py:114-117 | the path update succeeds exactly when every existing node along the path is a dict |
| ConfigTree.SetPathFreshOk | main.py:116 | on an empty dict every non-empty path can be written, because missing levels are created |
| ConfigTree.LookupAfterSetPath | main.py:114-117 | after the update, looking up the full path yields the assigned value |
| ConfigTree.OffPathUnchanged | main.py:115-117 | every path that leaves the key path at some level reads the same before and after |
| ConfigTree.SetPathLevel | main.py:116-117 | at each level only the next key's entry changes; a missing level becomes a dict holding only that key, an existing one is reused with its siblings kept |
| ConfigTree.SetPathIdempotent | main.py:114-117 | applying the same update twice gives the same tree as applying it once |
| ConfigTree.SetPathSame | main.py:117 | writing back the value already at the path changes nothing |
| ConfigTree.ConfigDict.constructor | main.py:114 | the dict object starts holding the given tree |
| ConfigTree.ConfigDict.UpdateNestedDict | main.py:114-117 | the `setdefault` loop and final assignment leave exactly the functional update's tree, or report its error and leave the dict unchanged |
| ConfigTree.Split | service_configuration.py:21 | `key.split('.')` gives at least one segment and no segment contains a dot |
| ConfigTree.JoinSplit | service_configuration.py:21 | joining the split segments with dots gives back the key |
| ConfigTree.SplitJoin | service_configuration.py:21 | splitting dot-joined dot-free segments gives back the segments |
| ConfigTree.SplitNoSep | service_configuration.py:21 | a key without a dot splits into itself alone |
| Numeric.Trunc | scalability_analysis.py:59 | `int(x)` truncates toward zero: below `x` by less than one when `x >= 0`, above by less than one when `x < 0` |
| Numeric.TruncOfInt | risk_assessment.py:15 | `int` of a whole number is that number |
| Numeric.Clamp | operational_metrics.py:23-24 | `min(max(x, lo), hi)` lies in `[lo, hi]` and is `x` when `x` is already in range |
| Numeric.Max | market_position.py:105 | `max` is at least every element and equals one of them |
| Numeric.SumScaled | financial_overview.py:174-178 | scaling every element scales the sum |
| Numeric.SignOfProduct | risk_assessment.py:49 | the sign of a product is the product of the signs |
| Numeric.PowAtLeastOne | forecast_trends.py:69 | a base of at least one keeps every power at least one |
| CostEngine.ReadServiceCosts | main.py:181-188 | the seven rate reads succeed exactly when all seven paths hold numbers, and the record holds those numbers; each product is looked up in full before it is checked, and the STT rate is checked last, at the sum |
| CostEngine.LookupBeforeArithmetic | main.py:182-183 | a non-number input rate beside a missing token count is the KeyError of the lookup, not a TypeError |
| CostEngine.CalculateTotalCostPerMinute | main.py:181-189 | the total is the input and output token costs per thousand, plus the STT rate, plus the TTS cost per thousand characters; it fails exactly when a rate cannot be read |
| CostEngine.TotalCostPerMinute | main.py:181-189 | the per-minute sum of the three service costs; its bounds are stated by TotalNonNegative and TotalMonotone |
| CostEngine.TotalNonNegative | main.py:182-189 | non-negative rates give a non-negative total |
| CostEngine.TotalMonotone | main.py:182-189 | raising any rate never lowers the total |
| CostEngine.DefaultTextRates | main.py:23-26 | the default LLM rates are 0.005 and 0.015 per thousand tokens at 0.5 tokens per minute |
| CostEngine.DefaultAudioRates | main.py:27-32 | the default STT rate is 0.0036, TTS 0.18 per thousand characters at 150 characters |
| CostEngine.ReadDefaultServiceCosts | main.py:20-98 | the default configuration yields the default rate record |
| CostEngine.DefaultTotalCostPerMinute | main.py:181-192 | the default total per minute is 0.03061 |
| FinancialOverview.PerMinuteRates | financial_overview.py:17-41 | the three per-minute rates add up to the engine's total |
| FinancialOverview.Breakdown | financial_overview.py:11-41 | three entries, Text Generation, Audio Recognition, Audio Generation, each its rate times the month's call minutes |
| FinancialOverview.ReadBreakdownRates | financial_overview.py:17-40 | this file reads the same rates in its own order, with the STT product first: it succeeds exactly when main.py's reading does, with the same record |
| FinancialOverview.SttProductComesFirst | financial_overview.py:26-40 | with a non-number STT rate and no `audio_generation`, this file fails with TypeError while main.py fails with KeyError (with main.py:181-188) |
| FinancialOverview.CalculateCosts | financial_overview.py:8-45 | the breakdown exists exactly when the rates can be read, is the breakdown of those rates, and fails with this file's reading error |
| FinancialOverview.BreakdownSumsToTotal | financial_overview.py:12-15 | the summed breakdown is the month's minutes times the engine's per-minute total |
| FinancialOverview.TotalMonthlyCost | financial_overview.py:67 | `df_costs["Monthly Cost ($)"].sum()`: zero for no lines, non-negative when every line is; BreakdownSumsToTotal states its value |
| FinancialOverview.CalculateRevenue | financial_overview.py:48-56 | revenue is agents times calls times price times 30 and fails exactly when the price cannot be read |
| FinancialOverview.MonthlyRevenue | financial_overview.py:48-56 | agents times calls times price times 30: free calls earn nothing, and non-negative inputs earn a non-negative amount; RevenueLinear states its scaling |
| FinancialOverview.RevenueLinear | financial_overview.py:48-56 | doubling agents or calls doubles revenue; no agents or no calls, no revenue |
| FinancialOverview.ProfitMargin | financial_overview.py:69-72 | the margin is 0 without revenue and otherwise the kept share of revenue times 100: at most 100 for non-negative cost, non-negative exactly when cost is at most revenue |
| FinancialOverview.BreakEvenCalls | financial_overview.py:135 | `int(cost / price)` is the largest whole number of calls whose price does not exceed the cost; a zero price is a ValueError (NaN) at zero cost and an OverflowError otherwise |
| FinancialOverview.BreakEvenExample | financial_overview.py:135 | cost 5000 at price 1 needs 5000 calls |
| FinancialOverview.PerCall | financial_overview.py:133-134 | a per-call figure times the month's calls is the monthly figure; no calls, no figure |
| FinancialOverview.PerCallMetrics | financial_overview.py:133-134 | cost per call is duration times the per-minute rate and profit per call is price less that |
| FinancialOverview.ProfitTrend | financial_overview.py:96-104 | 365 points, the first being the monthly profit |
| FinancialOverview.ProfitTrendLinear | financial_overview.py:101 | every day adds the same profit times growth over 365 |
| FinancialOverview.Percentages | financial_overview.py:174-178 | each percentage times the total is its rate times 100; a zero total has none |
| FinancialOverview.PercentagesSumTo100 | financial_overview.py:174-178 | the percentages of a non-zero total add up to 100 |
| ScalabilityAnalysis.ScaledAgents | scalability_analysis.py:59 | the scaled agent count is `num_agents * factor` truncated |
| ScalabilityAnalysis.ScaleByOne | scalability_analysis.py:59 | factor 1 gives the agent count back |
| ScalabilityAnalysis.CalculateRevenue | scalability_analysis.py:44-50 | daily revenue times 30, failing exactly when the price cannot be read |
| ScalabilityAnalysis.CalculateRevenueAgrees | scalability_analysis.py:44-50 | this revenue equals the financial overview's |
| ScalabilityAnalysis.ScaleRowRevenue | scalability_analysis.py:60-71 | each row's revenue is the shared revenue at the scaled count, profit is revenue less cost, margin is the shared margin rule |
| ScalabilityAnalysis.ScaleRowAt | scalability_analysis.py:60-71 | one row of the scale curve: profit is revenue less cost, the margin is the margin rule of those two, and zero agents give zero revenue, cost and margin; ScaleRowRevenue states its figures |
| ScalabilityAnalysis.ScaleCurve | scalability_analysis.py:56-75 | one row per factor 0.5, 1, 2, 5, 10 in that order, each computed from its own truncated agent count; the price read's error otherwise |
| ScalabilityAnalysis.MarginIndependentOfScale | scalability_analysis.py:69-71 | every row with agents has margin `(price - duration * rate) / price * 100` |
| ScalabilityAnalysis.LabelRoundTrip | scalability_analysis.py:87-88 | the label `"<n> Agents"` of line 65 splits and parses back to exactly `n` |
| ScalabilityAnalysis.NatDigitsRoundTrip | scalability_analysis.py:65 | the decimal digits of a count parse back to the count |
| ScalabilityAnalysis.ParseInt | scalability_analysis.py:88 | `astype(int)` either parses or raises ValueError |
| ScalabilityAnalysis.LabelAgents | scalability_analysis.py:88 | the first word of a label parses or raises ValueError |
| ScalabilityAnalysis.CostPerCall | scalability_analysis.py:87-89 | cost per call times the parsed agents, calls and 30 is the row's cost; undefined when that product is zero |
| ScalabilityAnalysis.CostPerCallIsConstant | scalability_analysis.py:87-89 | cost per call is duration times rate at every scale with agents and undefined with none |
| ScalabilityAnalysis.HalfOfOneAgentHasNoCostPerCall | scalability_analysis.py:87-89 | one agent at factor 0.5 truncates (line 59) to none, so that row has no cost per call |
| ScalabilityAnalysis.Efficiency | scalability_analysis.py:99 | efficiency times cost is profit; undefined at zero cost |
| ScalabilityAnalysis.EfficiencyIsConstant | scalability_analysis.py:99 | every row with agents has the same efficiency `(price - duration * rate) / (duration * rate)` |
| ScalabilityAnalysis.SelectedRates | scalability_analysis.py:23-35 | every cell is looked up before any enters the arithmetic of line 35: a failed lookup is the error; otherwise the rates exist exactly when every cell is a number, and are Landline, Client Landline, each selection and SIP in that order |
| ScalabilityAnalysis.SelectedEntries | scalability_analysis.py:23-29 | the column cells exist exactly when each of the lookups succeeds, and are what those lookups find, in column order |
| ScalabilityAnalysis.CategoryEntries | scalability_analysis.py:27-28 | each selected cell is what `service_costs[category][key]` holds, and they exist exactly when every lookup succeeds |
| ScalabilityAnalysis.Numbers | scalability_analysis.py:32-38 | the column as numbers exactly when every cell is a number, and those numbers in order |
| ScalabilityAnalysis.ServiceLabels | scalability_analysis.py:19-22 | one label per rate |
| ScalabilityAnalysis.CostTable | scalability_analysis.py:32-40 | each row keeps its label and rate, its monthly cost being the rate times the call minutes times the days |
| ScalabilityAnalysis.CalculateCostsAsWritten | scalability_analysis.py:8-41 | `calculate_costs` as written never returns a table; CalculateCostsAsWrittenFails names the error |
| ScalabilityAnalysis.CalculateCostsAsWrittenFails | scalability_analysis.py:12-40 | `calculate_costs` never returns: a non str-to-str selection is a ValueError, and a readable one reaches the undefined `DAYS_PER_MONTH` |
| ScalabilityAnalysis.DefaultConfigHasNoOtherCosts | scalability_analysis.py:24 | the default configuration has no `service_costs.other`, so whatever is selected the rates fail with KeyError on `other` (with main.py:22-33) |
| ScalabilityAnalysis.CalculateCostsCorrected | scalability_analysis.py:8-41 | with a 30-day month: ValueError for a bad selection; otherwise a table exactly when every rate is found, its rows Landline, Client Landline, the selections and SIP, each carrying its selected rate |
| ScalabilityAnalysis.CorrectedMonthlyCosts | scalability_analysis.py:32-40 | each row of the corrected table costs its rate times the call minutes of a 30-day month |
| ScalabilityAnalysis.TableMonthlyIsMinutes | scalability_analysis.py:36-40 | over a 30-day month, every row of a cost table costs its rate times the month's call minutes |
| ScalabilityAnalysis.CorrectedTable | scalability_analysis.py:32-38 | the table over the selected labels has Landline, Client Landline and SIP in place and each row's rate from the same column |
| RiskAssessment.RiskCostPerMinute | risk_assessment.py:31-39 | the summed rate exists exactly when the rates can be read |
| RiskAssessment.RiskCostPerMinuteAgrees | risk_assessment.py:31-39 | this file's summed rate is main.py's total per minute, errors included |
| RiskAssessment.TermsSum | risk_assessment.py:31-39 | the four listed terms add up to the engine's total |
| RiskAssessment.TrialSetup | risk_assessment.py:15-23 | the trial inputs exist exactly when the normal spreads are non-negative (numpy raises ValueError otherwise) and price and rates can be read |
| RiskAssessment.Sample | risk_assessment.py:15-23 | a normal draw `mean + mean * spread * z`: a zero standard draw gives the mean |
| RiskAssessment.TrialProfit | risk_assessment.py:15-49 | one trial's profit, zero when the truncated agent sample is zero; TrialProfitFactors and TrialProfitSign state its factors and sign |
| RiskAssessment.Simulation | risk_assessment.py:9-52 | one profit per draw in draw order, each the trial profit of that draw; no draws, no results |
| RiskAssessment.MonteCarloSimulation | risk_assessment.py:12-52 | the trial loop returns exactly the simulation's results |
| RiskAssessment.TrialStep | risk_assessment.py:14-50 | one pass of the loop fails with the setup's error, or yields that draw's trial profit |
| RiskAssessment.Trial | risk_assessment.py:15-49 | the four samples, the revenue and the cost of one pass make up the trial profit |
| RiskAssessment.SimulationFails | risk_assessment.py:13-23 | with at least one trial, a failed check fails the whole simulation with that error |
| RiskAssessment.SimulationStep | risk_assessment.py:13-50 | after a successful setup, entry `i` of the simulation is draw `i`'s trial profit |
| RiskAssessment.TrialProfitFactors | risk_assessment.py:26-49 | a trial's profit is `30 * agents * calls * (price - duration * rate)` with only agents truncated |
| RiskAssessment.TrialProfitSign | risk_assessment.py:15-49 | its sign is the sign of agents times calls times the sign of price less duration times rate |
| RiskAssessment.MeanDrawIsDeterministic | risk_assessment.py:15-49 | a trial at the means gives the deterministic monthly revenue less cost |
| RiskAssessment.Mean | risk_assessment.py:67 | the mean times the count is the sum; an empty list has none |
| RiskAssessment.SumConstant | risk_assessment.py:67 | a list of equal values sums to count times value |
| RiskAssessment.MeanOfConstantSeq | risk_assessment.py:67 | the mean of equal values is that value |
| RiskAssessment.MeanOfMeanDraws | risk_assessment.py:59-67 | when every draw sits at its mean, the mean profit is the deterministic monthly profit |
| RiskAssessment.TablesAligned | risk_assessment.py:79-110 | four sensitivity variables with four impacts; six risks with six likelihoods and impacts |
| ForecastTrends.CalculateRevenueAgrees | forecast_trends.py:34-42 | this revenue equals the financial overview's |
| ForecastTrends.SyntheticHistory | forecast_trends.py:15-19 | 24 entries, entry k the revenue times `1 + e_k`, failing exactly when revenue does |
| ForecastTrends.Growths | forecast_trends.py:17 | one growth factor `1 + e` per draw |
| ForecastTrends.GrowthsSum | forecast_trends.py:15-19 | the factors sum to the count plus the sum of the draws |
| ForecastTrends.BalancedDrawsSum | forecast_trends.py:15-19 | draws summing to zero give a history summing to 24 times the base |
| ForecastTrends.HistoryTotal | forecast_trends.py:15-19 | on such draws the history's total is 24 times the modelled revenue |
| ForecastTrends.ProjectedMarketShare | forecast_trends.py:66-71 | the projection of the configured share and growth rate, failing exactly when either is not a number; both are looked up before either enters arithmetic |
| ForecastTrends.Projection | forecast_trends.py:67-71 | twelve months, starting at the current share; ProjectionCompounds states the monthly growth |
| ForecastTrends.ProjectionCompounds | forecast_trends.py:67-71 | 12 entries, the first the current share, each the previous times `1 + g` |
| ForecastTrends.ProjectionNonDecreasing | forecast_trends.py:67-71 | with non-negative share and growth the projection never falls |
| ForecastTrends.PowMonotone | forecast_trends.py:69 | powers of a base of at least one grow with the exponent |
| ForecastTrends.DefaultProjection | forecast_trends.py:66-71 | the defaults project share 15 at growth 0.1 (with main.py:39-41) |
| ForecastTrends.KpiAsWrittenFailsOnDefaults | forecast_trends.py:109-112 | with the default configuration the KPI values fail with KeyError on `stt` |
| ForecastTrends.KpiCurrentValuesAsWritten | forecast_trends.py:109-113 | four values, defined exactly when the revenue, share, satisfaction and `service_costs.stt.Deepgram` can be read as numbers, the last that rate times the duration |
| ForecastTrends.KpiCurrentValues | forecast_trends.py:109-113 | four values, defined exactly when the revenue, share, satisfaction and Deepgram Nova-2 rate can be read as numbers: the revenue, the share, the satisfaction and the rate times the duration; the share and satisfaction are checked only after every lookup |
| ForecastTrends.KpiOfRates | forecast_trends.py:109-113 | when price, share, satisfaction and the Deepgram Nova-2 rate are numbers, the table is exactly the monthly revenue, the share, the satisfaction and the rate times the duration |
| ForecastTrends.KpiOnDefaults | forecast_trends.py:109-112 | on the defaults: revenue at price 1, share 15, satisfaction 4.5, `0.0036 * duration` (with main.py:22-42) |
| ForecastTrends.KpiGrowth | forecast_trends.py:119 | growth times current is the change times 100; a zero current value raises ZeroDivisionError |
| ForecastTrends.KpiForecast | forecast_trends.py:113 | a zero draw keeps the current value, and a positive draw raises a positive one; KpiGrowthIsDraw states its growth |
| ForecastTrends.KpiGrowthIsDraw | forecast_trends.py:113-119 | the growth is 100 times the draw, so it lies in `[5, 15)` for a draw in `[0.05, 0.15)` |
| MarketPosition.Iterate | market_position.py:29 | iterating a list gives its elements; iterating a number raises TypeError |
| MarketPosition.ReadEntry | market_position.py:24-27 | a competitor reads exactly when it is a dict with a name and numeric share, satisfaction and price |
| MarketPosition.ReadEntries | market_position.py:22-30 | every competitor reads, in order, or the read fails |
| MarketPosition.Competitors | market_position.py:22-30 | the competitors exist only when the configured value can be iterated, one entry per element |
| MarketPosition.ReadCompetitorTree | main.py:44-49 | a default competitor record reads back as its fields |
| MarketPosition.MarketTable | market_position.py:11-31 | `n + 1` rows, Our Service first with the configured figures, then the competitors in input order |
| MarketPosition.CountBelowBounds | market_position.py:101 | the count below lies within the list and is 0 or full exactly at the extremes |
| MarketPosition.CountBelowMonotone | market_position.py:101 | a larger own value never counts fewer competitors below |
| MarketPosition.CountBelow | market_position.py:101 | the number of competitors strictly below us, at most the number of competitors |
| MarketPosition.TiesCountAsAhead | market_position.py:101 | raising a competitor to a tie never improves the rank |
| MarketPosition.Rank | market_position.py:101-115 | the rank lies in `[1, n + 1]` out of `n + 1` |
| MarketPosition.PositionRank | market_position.py:101 | share rank 1 exactly when no competitor is below, `n + 1` exactly when all are |
| MarketPosition.SatisfactionRank | market_position.py:115 | the same rule on customer satisfaction |
| MarketPosition.GapToLeader | market_position.py:105 | our share plus the gap is the largest competitor share; non-negative exactly when some competitor is not below us; no competitors raises |
| MarketPosition.PriceCompetitiveness | market_position.py:111 | defined exactly when the competitor prices do not sum to zero |
| MarketPosition.PriceCompetitivenessInverse | market_position.py:111 | the ratio times the price sum times `n + 1` is our price, the formula as written |
| MarketPosition.PricingLabel | market_position.py:162 | competitive or premium; no competitors is a division by zero |
| MarketPosition.PricingRule | market_position.py:162 | competitive exactly when price times `n` is at most the competitor price sum, the mean over `n` |
| MarketPosition.Rate | market_position.py:173-177 | a month's rate is defined exactly for two numbers with a non-zero first |
| MarketPosition.GrowthRates | market_position.py:172-181 | `len - 1` rates, entry i from months i and i + 1; fewer than two months give none |
| MarketPosition.RateRecovers | market_position.py:173-177 | a month times one plus its rate is the next month |
| MarketPosition.NonDecreasingHistoryRates | market_position.py:172-181 | a positive non-decreasing history has only non-negative rates |
| MarketPosition.AverageGrowthRate | market_position.py:172-182 | the average times the number of rates is their sum; it exists only for a list history of at least two months |
| MarketPosition.ShortHistoryHasNoAverage | market_position.py:182 | fewer than two months divide by zero |
| MarketPosition.DictHistoryHasNoAverage | market_position.py:172-182 | a dict history raises KeyError on the integer subscript 1 exactly when it has two or more entries, and divides by zero exactly when it has fewer |
| MarketPosition.IndustryRate | market_position.py:188 | the rate times the history length is the last less the first value; it exists only for a non-empty list history with numeric ends |
| MarketPosition.DefaultCompetitors | main.py:43-62 | the default competitors read in order |
| Defaults.DefaultScalars | main.py:39-42 | the default price per call is 1.0, our market share 15 and our customer satisfaction 4.5 |
| MarketPosition.DefaultMarketTable | market_position.py:11-31 | the default table is Our Service and the three competitors (with main.py:39-62) |
| MarketPosition.DefaultMetrics | market_position.py:101-162 | defaults: position 1 of 4, satisfaction 4 of 4, gap 15, competitive, competitiveness 0.078125 |
| MarketPosition.DefaultIndustryRate | market_position.py:188 | the default industry rate is `(7.2 - 5.0) / 12` (with main.py:82-95) |
| MarketPosition.DefaultAverageGrowthNonNegative | market_position.py:172-182 | the default average growth exists and is non-negative (with main.py:68-81) |
| OperationalMetrics.ReadBase | operational_metrics.py:10-14 | the base record reads exactly when the three averages exist |
| OperationalMetrics.Day | operational_metrics.py:20-25 | one day: its offset, handling time base plus noise, resolution in `[0, 1]`, satisfaction in `[1, 5]` |
| OperationalMetrics.HistoricalData | operational_metrics.py:9-28 | the history exists exactly when the base reads and, on any day, its three averages are numbers; one row per offset in order |
| OperationalMetrics.GenerateHistoricalData | operational_metrics.py:9-28 | the day loop returns exactly the modelled history |
| OperationalMetrics.HistoryShape | operational_metrics.py:16-27 | one row per offset in order; resolution in `[0, 1]`, satisfaction in `[1, 5]` |
| OperationalMetrics.HistoryValues | operational_metrics.py:22-24 | handling time is base plus noise, unclamped; each clamped metric is base plus noise when already in range |
| OperationalMetrics.NoDaysNoArithmetic | operational_metrics.py:19-28 | no days never reach the additions, so any readable base gives an empty history |
| OperationalMetrics.DefaultBase | main.py:34-38 | the default averages are 5.0, 0.85 and 4.5 |
| OperationalMetrics.Utilization | operational_metrics.py:65-68 | defined exactly when there are agents |
| OperationalMetrics.UtilizationPerAgent | operational_metrics.py:65-68 | utilization is one agent's calls times duration over 480 minutes, times 100 |
| OperationalMetrics.UtilizationIndependentOfAgents | operational_metrics.py:65-68 | any two non-empty teams have the same utilization |
| OperationalMetrics.ExampleUtilization | operational_metrics.py:65-68 | 50 calls of 5 minutes fill 250 of 480 minutes |
| ServicePerformance.ServiceCostTerms | service_performance.py:12-36 | three costs in row order: the main.py terms |
| ServicePerformance.CostTermsSumToTotal | service_performance.py:12-36 | they add up to main.py's total (with main.py:189) |
| ServicePerformance.ServiceTable | service_performance.py:12-38 | three rows named in order with the engine's costs and the drawn accuracy and latency; the rate read's error otherwise |
| ServicePerformance.PercentageOfTotal | service_performance.py:39 | each percentage times the total is its cost times 100; a zero total has none |
| ServicePerformance.SharesSumTo100 | service_performance.py:39 | with main.py's total the shares are the cost percentages and add up to 100 (with main.py:192) |
| ServicePerformance.CostAxis | service_performance.py:53-58 | a zero cost becomes 1e-6, so the reciprocal always exists, positive for a positive cost |
| ServicePerformance.SpeedAxis | service_performance.py:60 | the latency reciprocal times the latency is 1; a zero latency has none |
| ServicePerformance.PointAt | service_performance.py:98-99 | accuracy never exceeds 100, latency is never negative, each unchanged when already in range |
| ServicePerformance.Block | service_performance.py:94-100 | one point per day of a service, in day order |
| ServicePerformance.PerformanceSeries | service_performance.py:88-100 | the nested service-by-day loop returns exactly the series |
| ServicePerformance.SeriesLength | service_performance.py:87-100 | services times days points |
| ServicePerformance.SeriesPoint | service_performance.py:90-100 | point `i * days + j` is service i on day j |
| ServicePerformance.SeriesBounds | service_performance.py:98-99 | every point has accuracy at most 100 and latency at least 0 |
| ServicePerformance.YearSeriesLength | service_performance.py:87-100 | 2024 has 366 days, so the series has 1098 points |
| ServicePerformance.ThreeServicesOverYear | service_performance.py:87-100 | any three rows with 366 daily draws each give 1098 points |
| ServicePerformance.FindService | service_performance.py:91-92 | the first row with that name, or none |
| ServicePerformance.TableServiceFindsItsRow | service_performance.py:90-92 | each service name selects its own row |
| ServicePerformance.ArgMax | service_performance.py:123-126 | `idxmax`: a largest element, the first among ties |
| ServicePerformance.ArgMin | service_performance.py:127 | `idxmin`: a smallest element, the first among ties |
| ServicePerformance.ArgMaxUnique | service_performance.py:123-126 | the first largest element is the only index with that property |
| ServicePerformance.KeyInsights | service_performance.py:123-127 | each insight names the first row attaining the extreme: the largest share, the highest accuracy, the lowest latency; every earlier row is strictly short of it, as `idxmax` and `idxmin` pick among ties |
| ServicePerformance.MostExpensive | service_performance.py:122-123 | names the first row of largest cost share; every earlier row has a strictly smaller share, as `idxmax` picks |
| ServicePerformance.MostAccurate | service_performance.py:124-125 | names the first row of highest accuracy; every earlier row is strictly less accurate |
| ServicePerformance.Fastest | service_performance.py:126 | names the first row of lowest latency; every earlier row is strictly slower, as `idxmin` picks |
| ServicePerformance.ArgMaxOfScaled | service_performance.py:123-124 | scaling by a positive total keeps the arg-max |
| ServicePerformance.MostExpensiveIsLargestCost | service_performance.py:123-124 | the largest share belongs to the largest cost |
| ServiceConfiguration.Initialized | service_configuration.py:6-16 | after initialisation the session holds a configuration |
| ServiceConfiguration.InitializeSetsOnlyAbsent | service_configuration.py:6-16 | only absent entries are set; the configuration becomes the given one only when absent; a successful run fills all three options |
| ServiceConfiguration.InitializeIdempotent | service_configuration.py:6-16 | initialising twice equals initialising once |
| ServiceConfiguration.InitializeDefaults | service_configuration.py:10-16 | on the defaults the options are gpt-4o, deepgram and elevenlabs |
| ServiceConfiguration.ConfigUpdate | service_configuration.py:19-25 | the dotted-key update on a configuration value: a string or number configuration raises AttributeError, a success is a dict, and no failure is a KeyError |
| ServiceConfiguration.ConfigUpdated | service_configuration.py:19-25 | `update_config` changes only the configuration entry; a failure leaves the session as it was; a success leaves a dict |
| ServiceConfiguration.UpdateConfigLookup | service_configuration.py:19-25 | after `update_config` the split key's path yields the value |
| ServiceConfiguration.UpdateConfigOffPath | service_configuration.py:22-25 | paths leaving the key's path read as before |
| ServiceConfiguration.UpdateConfigSegments | service_configuration.py:21-25 | a dotted key of dot-free segments updates exactly that segment path |
| ServiceConfiguration.UpdateConfigIdempotent | service_configuration.py:19-25 | the same update twice equals once |
| ServiceConfiguration.Selected | service_configuration.py:44-123 | after a radio choice the session holds it, and a changed choice that succeeds leaves a configuration; SelectRecordsChoice states what the configuration records |
| ServiceConfiguration.Entered | service_configuration.py:49-141 | a rate widget followed by `update_config` changes at most the configuration, a failure changes nothing, and no configuration is an AttributeError; EnteredStoresRate states what it stores |
| ServiceConfiguration.SelectRecordsChoice | service_configuration.py:44-123 | after a selection the option is the choice, and a changed choice is written into the configuration |
| ServiceConfiguration.EnteredStoresRate | service_configuration.py:49-141 | a rate widget stores the entered rate, or the shown one, at its path and changes nothing else in the session |
| ServiceConfiguration.UntouchedRateKeepsConfig | service_configuration.py:49-141 | leaving a widget at its stored value changes nothing |
| ServiceConfiguration.ProviderKeys | service_configuration.py:155-158 | deepgram reads `deepgram_nova2`, elevenlabs reads `11labs_scale`, the main.py keys; other options read themselves |
| ServiceConfiguration.LlmTerm | service_configuration.py:148-153 | one token term of the LLM cost, `tokens_per_minute` falling back to 0.5: a success means the configured token rate is a number, and a failure is a lookup, attribute or type error |
| ServiceConfiguration.SttCostAsWritten | service_configuration.py:155-156 | the STT cost exists exactly when `cost_per_minute` inside the provider's entry is a number, and is that number; WhisperCostAsWrittenFails states its failure for Whisper |
| ServiceConfiguration.TtsCostAsWritten | service_configuration.py:157-160 | the TTS cost exists exactly when `cost_per_1k_chars` inside the provider's record and the characters per minute are numbers; DeepgramTtsCostAsWrittenFails states its failure for Deepgram TTS |
| ServiceConfiguration.CostsAsWritten | service_configuration.py:147-160 | the `costs` dict as the page builds it: it exists exactly when the LLM terms and the STT and TTS costs read as written exist, and holds them under the three labels |
| ServiceConfiguration.Costs | service_configuration.py:147-160 | the same dict with each rate read where the page stores it: it exists exactly when those reads exist, and holds them under the three labels |
| ServiceConfiguration.CostValues | service_configuration.py:174 | one value per cost entry |
| ServiceConfiguration.CostsShape | service_configuration.py:147-174 | three distinct entries, LLM, STT and TTS, and the total is their sum |
| ServiceConfiguration.TotalMatchesEngine | service_configuration.py:147-174 | with deepgram and elevenlabs the page's total is main.py's per-minute total (with main.py:181-189) |
| ServiceConfiguration.DefaultComparison | service_configuration.py:147-174 | on the defaults both totals are 0.03061 (with main.py:192) |
| ServiceConfiguration.WhisperCostAsWrittenFails | service_configuration.py:111-156 | once the Whisper rate is stored, the cost table as written fails |
| ServiceConfiguration.WhisperCostReadBack | service_configuration.py:105-111 | read where it is stored, the Whisper cost is the entered rate |
| ServiceConfiguration.DeepgramTtsCostAsWrittenFails | service_configuration.py:141-158 | once the Deepgram TTS rate is stored, the cost table as written fails |
| ServiceConfiguration.DeepgramTtsCostReadBack | service_configuration.py:135-160 | read where it is stored, the Deepgram TTS cost is the entered rate per thousand characters |
| ServiceConfiguration.CostOf | service_configuration.py:185 | `costs[baseline]`: none exactly when no entry has that name, otherwise an entry's cost |
| ServiceConfiguration.SavingsFrom | service_configuration.py:187-190 | the savings loop skips the baseline: no entry names it, and there are at most as many entries as services; SavingsAgainstBaseline states their values |
| ServiceConfiguration.Savings | service_configuration.py:185-190 | `costs[baseline]` raises KeyError exactly when no entry has the baseline's name |
| ServiceConfiguration.ComputeSavings | service_configuration.py:183-190 | the savings loop returns exactly the modelled savings |
| ServiceConfiguration.Against | service_configuration.py:187-197 | one entry per service; positive exactly when cheaper than the baseline, negative exactly when dearer |
| ServiceConfiguration.SavingsWithoutBaseline | service_configuration.py:188-190 | without the baseline's name every entry is compared |
| ServiceConfiguration.SavingsAgainstBaseline | service_configuration.py:185-190 | every service except the baseline, `n - 1` entries, each baseline cost less its cost |
| ServiceConfiguration.CostOfDistinct | service_configuration.py:185 | with distinct names the baseline's cost is its own entry's |
| ServiceConfiguration.SavingsFromSplit | service_configuration.py:187-190 | with distinct names the loop skips exactly the baseline's entry |
| ServiceConfiguration.Apply | service_configuration.py:44-141 | a page step keeps the configuration present |
| ServiceConfiguration.RenderOutcome | service_configuration.py:29-141 | the page run keeps a configuration in the session |
| ServiceConfiguration.EnteredKeepsOptions | service_configuration.py:49-141 | rate widgets never change the options |
| ServiceConfiguration.LlmSectionRecords | service_configuration.py:38-81 | the LLM section records the LLM choice and keeps the other two |
| ServiceConfiguration.SttSectionRecords | service_configuration.py:85-111 | the STT section records the STT choice and keeps the other two |
| ServiceConfiguration.TtsSectionRecords | service_configuration.py:115-141 | the TTS section records the TTS choice and keeps the other two |
| ServiceConfiguration.RenderRecordsChoices | service_configuration.py:29-141 | after a successful run the three options are the three radio choices |
| ServiceConfiguration.StepKeepsLookup | service_configuration.py:22-25 | a step changes nothing off its own path |
| ServiceConfiguration.SttSectionStoresRate | service_configuration.py:95-111 | the STT section leaves a number at the chosen provider's rate path, the entered one when entered |
| ServiceConfiguration.TtsSectionStoresRate | service_configuration.py:125-141 | the TTS section leaves a number at the chosen provider's rate path, the entered one when entered |
| ServiceConfiguration.TtsSectionKeepsRecognition | service_configuration.py:115-141 | the TTS section leaves all speech-to-text entries untouched |
| ServiceConfiguration.WhisperRateIsBare | service_configuration.py:155-156 | a Whisper rate stored as a bare number makes the table's STT cost a TypeError |
| ServiceConfiguration.DeepgramTtsRateIsBare | service_configuration.py:157-158 | a Deepgram TTS rate stored as a bare number makes the table's TTS cost a TypeError |
| ServiceConfiguration.SttCostOfStored | service_configuration.py:98-111 | read where the page stores it, the Deepgram or Whisper cost is the number in that provider's field |
| ServiceConfiguration.SttRateSurvivesTts | service_configuration.py:113-141 | the TTS section leaves a stored STT rate as it was |
| ServiceConfiguration.RenderChargesSttRate | service_configuration.py:85-156 | the charged STT cost is the rate stored by the STT section; with Whisper the table as written fails |
| ServiceConfiguration.RenderWithBareRateFails | service_configuration.py:105-158 | with Whisper or Deepgram TTS selected the page run never shows a comparison: the stored bare rate is subscripted |
| ServiceConfiguration.LlmSectionUntouched | service_configuration.py:38-81 | with the option already chosen and no rate entered, the LLM section changes nothing |
| ServiceConfiguration.SttSectionUntouched | service_configuration.py:85-111 | likewise for the STT section |
| ServiceConfiguration.TtsSectionUntouched | service_configuration.py:115-141 | likewise for the TTS section |
| ServiceConfiguration.RenderUntouched | service_configuration.py:29-141 | a run that enters nothing and keeps the options leaves the initialised session |
| ServiceConfiguration.RenderDefaults | service_configuration.py:29-141 | on the defaults an untouched run leaves the defaults with gpt-4o, deepgram and elevenlabs (with main.py:20-98) |
| ServiceConfiguration.Report | service_configuration.py:147-197 | what the run shows: the exception that stopped it; otherwise a comparison exactly when the costs, read as written, and the savings against the baseline are both readable, holding those costs, their total and the savings |
| ServiceConfiguration.ReportCorrected | service_configuration.py:147-197 | the same, and succeeding under the same condition, with each rate read where it is stored |
| ServiceConfiguration.ReportsAgreeForRecordProviders | service_configuration.py:155-158 | with deepgram and elevenlabs, whose rates live in records, both reports coincide |
| ServiceConfiguration.DefaultReport | service_configuration.py:147-197 | that run reports total 0.03061 and two savings entries against the LLM baseline, and the corrected report is the same |
| ServiceConfiguration.Session.constructor | service_configuration.py:6-7 | a fresh session holds no entries |
| ServiceConfiguration.Session.InitializeConfigState | service_configuration.py:6-16 | the conditional assignments leave exactly the modelled initialised session |
| ServiceConfiguration.Session.UpdateConfig | service_configuration.py:19-25 | the copy, split and `setdefault` walk leave exactly the modelled update |
| ServiceConfiguration.Session.Select | service_configuration.py:44-123 | a radio change leaves exactly the modelled selection |
| ServiceConfiguration.Session.EnterRate | service_configuration.py:49-141 | a rate widget leaves exactly the modelled entry |
| ServiceConfiguration.Session.Render | service_configuration.py:28-199 | the page run leaves the modelled session and returns the comparison as the page computes it, costs read as written, or the exception that stopped it |

## Left out

- Streamlit widgets, layout, tabs and metrics, and all Plotly figures are left out. Widget values are parameters: `Choices`, `Inputs` and the baseline name.
- The sidebar of main.py (lines 121-161) is left out. It only feeds widget values to `update_nested_dict`, which is `ConfigTree.ConfigDict.UpdateNestedDict`.
- The `f"{x:.2f}"`-style formatting is left out. So is the format-then-reparse of service_performance.py (lines 40-46, 53, 59, 91), which is taken as the exact values: the model does not round.
- Random generation is left out. The normal, uniform and randint draws are parameters, and their distributions are not modelled.
  - The ranges of the uniform accuracy and the randint latency are not assumed either.
  - `np.random.normal` rejects a negative spread. `RiskAssessment.TrialSetup` models that as ValueError.
- The ARIMA fit and forecast (forecast_trends.py:22-26) are left out: a statsmodels call over floating point.
- `np.std` and `np.percentile` (risk_assessment.py:75-76) are left out because of numpy's interpolation rules. `np.mean` is `RiskAssessment.Mean`.
- Dates, `datetime.now`, `timedelta` and `pd.date_range` are left out. Only the counts are kept: 24 history months, 12 projected months, 366 days in 2024 and `num_days` offsets.
- IEEE-754 rounding, infinities and NaN are left out. Arithmetic is exact, and a numpy division by zero is "no value".
- The heatmap and histogram draws of operational_metrics.py (lines 54-62, 81-87) are left out: random numbers for charts only.
- The fixed-cost break-even chart of scalability_analysis.py (lines 109-112) is left out. So are the narrative insight comparisons built on the chart series.
- Narrative text, the SWOT lists, the industry-trend list and the fixed KRI table are left out.
- In market_position.py, the insights and trend block (lines 150-195) sits inside the SWOT loop and so repeats four times. Only the values computed there are modelled, not the repetition.
- `ConfigTree.ConfigDict.UpdateNestedDict`: the tree is a value, so the model does not capture dict aliasing.
  - `update_config` copies only the top level (service_configuration.py:20), so nested dicts stay shared with the earlier config object.
  - In the model the earlier configuration is untouched.
- `ServiceConfiguration.Session.Render`: a `number_input` whose shown value is not a number is modelled as TypeError. Streamlit's own exception is not modelled.
- `ServiceConfiguration.ChargedChars`: `chars_per_minute` is read at the `audio_generation` level with default 150, as the page does, not inside `11labs_scale` as main.py does.
  - `ServiceConfiguration.TotalMatchesEngine` therefore assumes the two agree.
  - The defaults satisfy that only because the fallback 150 equals the stored value.
- `ServicePerformance.ArgMax`: a NaN in the series is not modelled. pandas `idxmax` would skip it.
- `MarketPosition.ReadEntry`, `MarketPosition.MarketTable`: the table cells of market_position.py must hold numbers, and a non-number field is a TypeError when it is read. The program builds a pandas object column and fails later, in the charts or the rankings. On such a configuration the model can report TypeError where the program reports the KeyError of a later lookup.
- The console output of the selected services in `calculate_costs` (scalability_analysis.py:9) is left out: it only writes to standard output.
- The competitors, the share history and the industry history are read as lists of trees. Dict-ordering subtleties of pandas are not modelled.

## Findings

| source | as written | input that shows it | evidently intended | confidence | as-written member | corrected member |
|---|---|---|---|---|---|---|
| scalability_analysis.py:40 | the monthly cost multiplies by `DAYS_PER_MONTH`, which `calculate_costs` never defines | any str-to-str selection whose rates are all present: line 40 raises NameError | a 30-day month, as in financial_overview.py:11 (the monthly cost is stated by ScalabilityAnalysis.CorrectedMonthlyCosts) | not executed | ScalabilityAnalysis.CalculateCostsAsWrittenFails | ScalabilityAnalysis.CalculateCostsCorrected |
| forecast_trends.py:112 | the cost KPI reads `service_costs.stt.Deepgram` | the default configuration of main.py: `service_costs` has no `stt`, so KeyError | the Deepgram Nova-2 rate at `service_costs.audio_recognition.deepgram_nova2.cost_per_minute` | not executed | ForecastTrends.KpiAsWrittenFailsOnDefaults | ForecastTrends.KpiOnDefaults |
| service_configuration.py:155-156 | the Whisper rate is stored as a bare number at `audio_recognition.whisper`, but the cost table subscripts it for `cost_per_minute` | select whisper and enter any rate: indexing a float raises TypeError | read the Whisper rate where it is stored | not executed | ServiceConfiguration.WhisperCostAsWrittenFails | ServiceConfiguration.WhisperCostReadBack |
| service_configuration.py:157-158 | the Deepgram TTS rate is stored as a bare number at `audio_generation.deepgram_tts`, but the cost table subscripts it for `cost_per_1k_chars` | select deepgram_tts and enter any rate: indexing a float raises TypeError | read the Deepgram TTS rate where it is stored | not executed | ServiceConfiguration.DeepgramTtsCostAsWrittenFails | ServiceConfiguration.DeepgramTtsCostReadBack |
