/**
 * The default configuration dict main.py installs at start-up. The twelve
 * history dates are computed from the clock there, so they are a parameter here.
 */
module Defaults {
  import opened Wrappers
  import opened ConfigTree

  datatype Competitor = Competitor(name: string, share: real, satisfaction: real, price: real)

  const DefaultCompetitors: seq<Competitor> := [
    Competitor("Competitor A", 30.0, 4.2, 1.2),
    Competitor("Competitor B", 25.0, 4.0, 0.9),
    Competitor("Competitor C", 30.0, 4.3, 1.1)
  ]

  const DefaultShareHistory: seq<real> :=
    [12.0, 12.5, 13.0, 13.5, 14.0, 14.2, 14.5, 14.7, 14.8, 14.9, 15.0, 15.0]

  const DefaultIndustryGrowth: seq<real> :=
    [5.0, 5.2, 5.4, 5.6, 5.8, 6.0, 6.2, 6.4, 6.6, 6.8, 7.0, 7.2]

  /** A competitor record as the dict the configuration stores. */
  function CompetitorTree(c: Competitor): Tree
  {
    Node(map[
      "name" := Text(c.name),
      "market_share" := Num(c.share),
      "customer_satisfaction" := Num(c.satisfaction),
      "price_per_call" := Num(c.price)])
  }

  function Nums(s: seq<real>): seq<Tree>
  {
    seq(|s|, i requires 0 <= i < |s| => Num(s[i]))
  }

  function Texts(s: seq<string>): seq<Tree>
  {
    seq(|s|, i requires 0 <= i < |s| => Text(s[i]))
  }

  function TextGenerationDefaults(): Tree
  {
    Node(map[
      "input" := Node(map["cost_per_1k_tokens" := Num(0.005), "tokens_per_minute" := Num(0.5)]),
      "output" := Node(map["cost_per_1k_tokens" := Num(0.015), "tokens_per_minute" := Num(0.5)])])
  }

  function AudioRecognitionDefaults(): Tree
  {
    Node(map["deepgram_nova2" := Node(map["cost_per_minute" := Num(0.0036)])])
  }

  function AudioGenerationDefaults(): Tree
  {
    Node(map["11labs_scale" := Node(map["cost_per_1k_chars" := Num(0.18), "chars_per_minute" := Num(150.0)])])
  }

  function ServiceCostDefaults(): Tree
  {
    Node(map[
      "text_generation" := TextGenerationDefaults(),
      "audio_recognition" := AudioRecognitionDefaults(),
      "audio_generation" := AudioGenerationDefaults()])
  }

  function OperationalDefaults(): Tree
  {
    Node(map[
      "avg_handling_time" := Num(5.0),
      "first_call_resolution" := Num(0.85),
      "customer_satisfaction" := Num(4.5)])
  }

  function FinancialDefaults(): Tree
  {
    Node(map["price_per_call" := Num(1.0), "expected_growth_rate" := Num(0.1)])
  }

  function MarketDefaults(dates: seq<string>): Tree
  {
    Node(map[
      "our_market_share" := Num(15.0),
      "our_customer_satisfaction" := Num(4.5),
      "competitors" := Items(seq(|DefaultCompetitors|, i requires 0 <= i < |DefaultCompetitors| =>
                                 CompetitorTree(DefaultCompetitors[i]))),
      "historical_data" := Node(map[
        "dates" := Items(Texts(dates)),
        "our_market_share" := Items(Nums(DefaultShareHistory)),
        "industry_growth" := Items(Nums(DefaultIndustryGrowth))])])
  }

  /** main.py lines 20-98. */
  function DefaultConfig(dates: seq<string>): Tree
  {
    Node(map[
      "service_costs" := ServiceCostDefaults(),
      "operational_metrics" := OperationalDefaults(),
      "financial_metrics" := FinancialDefaults(),
      "market_data" := MarketDefaults(dates)])
  }

  /** The default price per call, market share and customer satisfaction. */
  lemma DefaultScalars(dates: seq<string>)
    ensures var t := DefaultConfig(dates);
      && GetNum(t, ["market_data", "our_market_share"]) == Ok(15.0)
      && GetNum(t, ["market_data", "our_customer_satisfaction"]) == Ok(4.5)
      && GetNum(t, ["financial_metrics", "price_per_call"]) == Ok(1.0)
  {
    var t := DefaultConfig(dates);
    assert GetNum(t, ["market_data", "our_market_share"]) == Ok(15.0);
    assert GetNum(t, ["market_data", "our_customer_satisfaction"]) == Ok(4.5);
  }
}
