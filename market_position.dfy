/**
 * market_position.py: the comparison table (our service first, then every
 * competitor in configuration order), the position and satisfaction
 * rankings, the gap to the leader, the price-competitiveness ratio, the
 * competitive/premium rule and the two growth rates of the trends section.
 */
module MarketPosition {
  import opened Wrappers
  import opened ConfigTree
  import opened Numeric
  import Defaults

  /** One row of the comparison table; the company cell is whatever the configuration holds. */
  datatype Entry = Entry(company: Tree, share: real, satisfaction: real, price: real)

  // ---------------------------------------------------------------------------
  // The table.

  /** The elements a `for comp in ...` loop visits: a list's items, an empty dict's or string's nothing. */
  function Iterate(t: Tree): (r: Result<seq<Tree>>)
    ensures t.Items? ==> r == Ok(t.elems)
    ensures t.Num? ==> r == Err(TypeError)
  {
    match t
    case Items(elems) => Ok(elems)
    case Node(m) => if m == map[] then Ok([]) else Err(TypeError)
    case Text(s) => if s == [] then Ok([]) else Err(TypeError)
    case Num(_) => Err(TypeError)
  }

  /** A competitor row: `name`, `market_share`, `customer_satisfaction`, `price_per_call`, in that order. */
  function ReadEntry(t: Tree): (r: Result<Entry>)
    ensures r.Ok? <==> Get(t, "name").Ok? && GetNum(t, ["market_share"]).Ok?
                       && GetNum(t, ["customer_satisfaction"]).Ok? && GetNum(t, ["price_per_call"]).Ok?
    ensures !t.Node? ==> r == Err(TypeError)
  {
    var name :- Get(t, "name");
    var share :- GetNum(t, ["market_share"]);
    var satisfaction :- GetNum(t, ["customer_satisfaction"]);
    var price :- GetNum(t, ["price_per_call"]);
    Ok(Entry(name, share, satisfaction, price))
  }

  /** The competitor rows in input order; the first failing record decides the error. */
  function ReadEntries(items: seq<Tree>): (r: Result<seq<Entry>>)
    ensures r.Ok? <==> forall i :: 0 <= i < |items| ==> ReadEntry(items[i]).Ok?
    ensures r.Ok? ==> |r.value| == |items| && forall i :: 0 <= i < |items| ==> ReadEntry(items[i]) == Ok(r.value[i])
  {
    if items == [] then Ok([])
    else
      var head :- ReadEntry(items[0]);
      var tail :- ReadEntries(items[1..]);
      assert forall i :: 1 <= i < |items| ==> items[i] == items[1..][i - 1];
      Ok([head] + tail)
  }

  function Competitors(config: Tree): (r: Result<seq<Entry>>)
    ensures r.Ok? ==> GetPath(config, ["market_data", "competitors"]).Ok?
                      && Iterate(GetPath(config, ["market_data", "competitors"]).value).Ok?
                      && |r.value| == |Iterate(GetPath(config, ["market_data", "competitors"]).value).value|
  {
    var comps :- GetPath(config, ["market_data", "competitors"]);
    var items :- Iterate(comps);
    ReadEntries(items)
  }

  /** The table: "Our Service" with our share, satisfaction and price, then every competitor. */
  function MarketTable(config: Tree): (r: Result<seq<Entry>>)
    ensures r.Ok? <==> GetNum(config, ["market_data", "our_market_share"]).Ok?
                       && GetNum(config, ["market_data", "our_customer_satisfaction"]).Ok?
                       && GetNum(config, ["financial_metrics", "price_per_call"]).Ok?
                       && Competitors(config).Ok?
    ensures r.Ok? ==> |r.value| == |Competitors(config).value| + 1
    ensures r.Ok? ==> r.value[0] == Entry(Text("Our Service"),
                                          GetNum(config, ["market_data", "our_market_share"]).value,
                                          GetNum(config, ["market_data", "our_customer_satisfaction"]).value,
                                          GetNum(config, ["financial_metrics", "price_per_call"]).value)
    ensures r.Ok? ==> r.value[1..] == Competitors(config).value
  {
    var share :- GetNum(config, ["market_data", "our_market_share"]);
    var satisfaction :- GetNum(config, ["market_data", "our_customer_satisfaction"]);
    var price :- GetNum(config, ["financial_metrics", "price_per_call"]);
    var comps :- Competitors(config);
    Ok([Entry(Text("Our Service"), share, satisfaction, price)] + comps)
  }

  /** A competitor record built from its fields reads back as those fields. */
  lemma ReadCompetitorTree(c: Defaults.Competitor)
    ensures ReadEntry(Defaults.CompetitorTree(c)) == Ok(Entry(Text(c.name), c.share, c.satisfaction, c.price))
  {
  }

  function Shares(entries: seq<Entry>): (r: seq<real>)
    ensures |r| == |entries| && forall i :: 0 <= i < |entries| ==> r[i] == entries[i].share
  {
    seq(|entries|, i requires 0 <= i < |entries| => entries[i].share)
  }

  function Satisfactions(entries: seq<Entry>): (r: seq<real>)
    ensures |r| == |entries| && forall i :: 0 <= i < |entries| ==> r[i] == entries[i].satisfaction
  {
    seq(|entries|, i requires 0 <= i < |entries| => entries[i].satisfaction)
  }

  function Prices(entries: seq<Entry>): (r: seq<real>)
    ensures |r| == |entries| && forall i :: 0 <= i < |entries| ==> r[i] == entries[i].price
  {
    seq(|entries|, i requires 0 <= i < |entries| => entries[i].price)
  }

  // ---------------------------------------------------------------------------
  // Rankings.

  /** `len([c for c in s if x > c])`. */
  function CountBelow(x: real, s: seq<real>): (r: nat)
    ensures r <= |s|
  {
    if s == [] then 0 else (if x > s[0] then 1 else 0) + CountBelow(x, s[1..])
  }

  /**
   * The count lies in `[0, |s|]`; it is 0 exactly when nobody is strictly
   * below `x` and `|s|` exactly when everybody is.
   */
  lemma {:induction false} CountBelowBounds(x: real, s: seq<real>)
    ensures CountBelow(x, s) <= |s|
    ensures CountBelow(x, s) == 0 <==> forall i :: 0 <= i < |s| ==> x <= s[i]
    ensures CountBelow(x, s) == |s| <==> forall i :: 0 <= i < |s| ==> x > s[i]
  {
    if s != [] {
      CountBelowBounds(x, s[1..]);
      assert forall i :: 1 <= i < |s| ==> s[i] == s[1..][i - 1];
      if x <= s[0] {
        assert !(forall i :: 0 <= i < |s| ==> x > s[i]);
      }
    }
  }

  /** A larger value never ranks lower. */
  lemma {:induction false} CountBelowMonotone(x: real, y: real, s: seq<real>)
    requires x <= y
    ensures CountBelow(x, s) <= CountBelow(y, s)
  {
    if s != [] {
      CountBelowMonotone(x, y, s[1..]);
    }
  }

  /** A competitor tied with us counts exactly like one ahead of us: ties never improve the rank. */
  lemma {:induction false} TiesCountAsAhead(x: real, s: seq<real>, i: nat, y: real)
    requires i < |s| && s[i] == x && y >= x
    ensures CountBelow(x, s[i := y]) == CountBelow(x, s)
  {
    if i == 0 {
      assert s[i := y][1..] == s[1..];
    } else {
      assert s[i := y][1..] == s[1..][i - 1 := y];
      TiesCountAsAhead(x, s[1..], i - 1, y);
    }
  }

  /** "k out of n": one plus the competitors strictly below us, out of the table size. */
  function Rank(ours: real, others: seq<real>): (r: (nat, nat))
    ensures 1 <= r.0 <= r.1 == |others| + 1
  {
    CountBelowBounds(ours, others);
    (CountBelow(ours, others) + 1, |others| + 1)
  }

  /** Our market position among the table's competitors. */
  function PositionRank(table: seq<Entry>): (r: (nat, nat))
    requires |table| > 0
    ensures 1 <= r.0 <= r.1 == |table|
    ensures r.0 == 1 <==> forall i :: 1 <= i < |table| ==> table[0].share <= table[i].share
    ensures r.0 == |table| <==> forall i :: 1 <= i < |table| ==> table[0].share > table[i].share
  {
    var others := Shares(table[1..]);
    CountBelowBounds(table[0].share, others);
    assert forall i :: 1 <= i < |table| ==> others[i - 1] == table[i].share;
    Rank(table[0].share, others)
  }

  /** Our customer-satisfaction ranking, by the same rule. */
  function SatisfactionRank(table: seq<Entry>): (r: (nat, nat))
    requires |table| > 0
    ensures 1 <= r.0 <= r.1 == |table|
    ensures r.0 == 1 <==> forall i :: 1 <= i < |table| ==> table[0].satisfaction <= table[i].satisfaction
    ensures r.0 == |table| <==> forall i :: 1 <= i < |table| ==> table[0].satisfaction > table[i].satisfaction
  {
    var others := Satisfactions(table[1..]);
    CountBelowBounds(table[0].satisfaction, others);
    assert forall i :: 1 <= i < |table| ==> others[i - 1] == table[i].satisfaction;
    Rank(table[0].satisfaction, others)
  }

  // ---------------------------------------------------------------------------
  // Gap, price competitiveness and the pricing label.

  /** `max(competitor shares) - ours`; `max` of nothing raises ValueError. */
  function GapToLeader(ours: real, others: seq<real>): (r: Result<real>)
    ensures r.Ok? <==> |others| > 0
    ensures r.Ok? ==> forall i :: 0 <= i < |others| ==> others[i] <= ours + r.value
    ensures r.Ok? ==> exists i :: 0 <= i < |others| && others[i] == ours + r.value
    ensures r.Ok? ==> (r.value >= 0.0 <==> exists i :: 0 <= i < |others| && ours <= others[i])
  {
    if others == [] then Err(ValueError) else Ok(Max(others) - ours)
  }

  /** `price / sum(competitor prices) / (n + 1)`; a zero sum raises ZeroDivisionError. */
  function PriceCompetitiveness(price: real, others: seq<real>): (r: Result<real>)
    ensures r.Ok? <==> Sum(others) != 0.0
  {
    if Sum(others) == 0.0 then Err(ZeroDivisionError)
    else Ok(price / Sum(others) / (|others| as real + 1.0))
  }

  /** The ratio, multiplied back by the price sum and the table size, is our price. */
  lemma PriceCompetitivenessInverse(price: real, others: seq<real>)
    requires Sum(others) != 0.0
    ensures PriceCompetitiveness(price, others).value * Sum(others) * (|others| as real + 1.0) == price
  {
    var s := Sum(others);
    var m := |others| as real + 1.0;
    DivDiv(price, s, m);
  }

  lemma DivDiv(p: real, s: real, m: real)
    requires s != 0.0 && m > 0.0
    ensures p / s / m * s * m == p
  {
    var q := p / s;
    assert q / m * m == q;
    assert q / m * s * m == q / m * m * s;
  }

  /** "competitive" when our price is at most the competitors' mean price, "premium" otherwise. */
  function PricingLabel(price: real, others: seq<real>): (r: Result<string>)
    ensures r.Ok? <==> |others| > 0
    ensures r.Ok? ==> r.value == "competitive" || r.value == "premium"
  {
    if |others| == 0 then Err(ZeroDivisionError)
    else if price <= Sum(others) / |others| as real then Ok("competitive")
    else Ok("premium")
  }

  /** The mean divides by the competitor count `n`, not by the table size `n + 1`. */
  lemma PricingRule(price: real, others: seq<real>)
    requires |others| > 0
    ensures PricingLabel(price, others) == Ok("competitive") <==> price * |others| as real <= Sum(others)
  {
    AtMostMean(price, Sum(others), |others| as real);
  }

  /** A price is at most the mean `s / n` exactly when `n` such prices cost at most `s`. */
  lemma AtMostMean(price: real, s: real, n: real)
    requires n > 0.0
    ensures price <= s / n <==> price * n <= s
  {
    assert s / n * n == s;
    if price <= s / n {
      MulLe(price, s / n, n);
    } else {
      MulLt(s / n, price, n);
    }
  }

  // ---------------------------------------------------------------------------
  // Growth rates.

  /** `h[i + 1] / h[i] - 1` for one pair of history entries. */
  function Rate(a: Tree, b: Tree): (r: Result<real>)
    ensures r.Ok? <==> a.Num? && b.Num? && a.x != 0.0
  {
    if !a.Num? || !b.Num? then Err(TypeError)
    else if a.x == 0.0 then Err(ZeroDivisionError)
    else Ok(b.x / a.x - 1.0)
  }

  /** The month-over-month rates, the first failing pair deciding the error. */
  function GrowthRates(h: seq<Tree>): (r: Result<seq<real>>)
    ensures |h| < 2 ==> r == Ok([])
    ensures r.Ok? <==> forall i :: 0 <= i < |h| - 1 ==> Rate(h[i], h[i + 1]).Ok?
    ensures r.Ok? && |h| >= 2 ==> |r.value| == |h| - 1
    ensures r.Ok? ==> forall i :: 0 <= i < |h| - 1 ==> Rate(h[i], h[i + 1]) == Ok(r.value[i])
  {
    if |h| < 2 then Ok([])
    else
      var first :- Rate(h[0], h[1]);
      var rest :- GrowthRates(h[1..]);
      assert forall i :: 1 <= i < |h| ==> h[i] == h[1..][i - 1];
      Ok([first] + rest)
  }

  /** Each rate grows its month into the next one. */
  lemma RateRecovers(a: Tree, b: Tree, q: real)
    requires Rate(a, b) == Ok(q)
    ensures a.Num? && b.Num? && a.x * (1.0 + q) == b.x
  {
    DivRecovers(a.x, b.x, q);
  }

  lemma DivRecovers(a: real, b: real, q: real)
    requires a != 0.0 && q == b / a - 1.0
    ensures a * (1.0 + q) == b
  {
  }

  /** A positive history that never falls has no negative rate. */
  lemma NonDecreasingHistoryRates(h: seq<Tree>)
    requires forall i :: 0 <= i < |h| ==> h[i].Num? && h[i].x > 0.0
    requires forall i :: 0 <= i < |h| - 1 ==> h[i].x <= h[i + 1].x
    ensures GrowthRates(h).Ok?
    ensures forall i :: 0 <= i < |GrowthRates(h).value| ==> GrowthRates(h).value[i] >= 0.0
  {
    forall i | 0 <= i < |h| - 1
      ensures Rate(h[i], h[i + 1]).Ok? && Rate(h[i], h[i + 1]).value >= 0.0
    {
      RatioAtLeastOne(h[i].x, h[i + 1].x);
    }
  }

  lemma RatioAtLeastOne(a: real, b: real)
    requires 0.0 < a <= b
    ensures b / a >= 1.0
  {
    MulLe(a, b, 1.0 / a);
  }

  function ShareHistory(config: Tree): Result<Tree>
  {
    GetPath(config, ["market_data", "historical_data", "our_market_share"])
  }

  /** `sum(growth_rates) / len(growth_rates)` over `historical_data.our_market_share`. */
  function AverageGrowthRate(config: Tree): (r: Result<real>)
    ensures r.Ok? ==> ShareHistory(config).Ok? && ShareHistory(config).value.Items?
    ensures r.Ok? ==> var h := ShareHistory(config).value.elems;
                      |h| >= 2 && GrowthRates(h).Ok? && r.value * (|h| - 1) as real == Sum(GrowthRates(h).value)
  {
    var t :- ShareHistory(config);
    match t
    case Items(elems) =>
      var rates :- GrowthRates(elems);
      if |rates| == 0 then Err(ZeroDivisionError)
      else
        var n := |rates| as real;
        assert |elems| - 1 == |rates| && Sum(rates) / n * n == Sum(rates);
        Ok(Sum(rates) / n)
    case Node(m) =>
      // with two or more entries the first term subscripts the dict with the integer 1
      if |m| < 2 then Err(ZeroDivisionError) else Err(KeyError("1"))
    case Text(str) =>
      // one character divided by another
      if |str| < 2 then Err(ZeroDivisionError) else Err(TypeError)
    case Num(_) => Err(TypeError)
  }

  /**
   * A history kept as a dict rather than a list: its string keys never match
   * the integer subscripts, so two or more entries raise KeyError on `h[1]`
   * and fewer leave no rates to average.
   */
  lemma DictHistoryHasNoAverage(config: Tree, m: map<string, Tree>)
    requires ShareHistory(config) == Ok(Node(m))
    ensures AverageGrowthRate(config).Err?
    ensures |m| >= 2 <==> AverageGrowthRate(config) == Err(KeyError("1"))
    ensures |m| < 2 <==> AverageGrowthRate(config) == Err(ZeroDivisionError)
  {
  }

  /** A history of fewer than two months has no rates, and averaging none divides by zero. */
  lemma ShortHistoryHasNoAverage(config: Tree, h: seq<Tree>)
    requires ShareHistory(config) == Ok(Items(h)) && |h| < 2
    ensures AverageGrowthRate(config) == Err(ZeroDivisionError)
  {
  }

  function IndustryHistory(config: Tree): Result<Tree>
  {
    GetPath(config, ["market_data", "historical_data", "industry_growth"])
  }

  /** `(g[-1] - g[0]) / len(g)` over `historical_data.industry_growth`; an empty list raises IndexError. */
  function IndustryRate(config: Tree): (r: Result<real>)
    ensures r.Ok? ==> IndustryHistory(config).Ok? && IndustryHistory(config).value.Items?
    ensures r.Ok? ==> var g := IndustryHistory(config).value.elems;
                      |g| > 0 && g[0].Num? && g[|g| - 1].Num? && r.value * |g| as real == g[|g| - 1].x - g[0].x
  {
    var t :- IndustryHistory(config);
    if t.Node? then Err(KeyError("-1"))  // `g[-1]` on a dict
    else if t.Text? then (if t.s == [] then Err(IndexError) else Err(TypeError))  // string minus string
    else if !t.Items? then Err(TypeError)
    else if t.elems == [] then Err(IndexError)
    else if !t.elems[|t.elems| - 1].Num? || !t.elems[0].Num? then Err(TypeError)
    else Ok((t.elems[|t.elems| - 1].x - t.elems[0].x) / |t.elems| as real)
  }

  // ---------------------------------------------------------------------------
  // The default configuration.

  const DefaultTable: seq<Entry> := [
    Entry(Text("Our Service"), 15.0, 4.5, 1.0),
    Entry(Text("Competitor A"), 30.0, 4.2, 1.2),
    Entry(Text("Competitor B"), 25.0, 4.0, 0.9),
    Entry(Text("Competitor C"), 30.0, 4.3, 1.1)
  ]

  lemma DefaultCompetitors(dates: seq<string>)
    ensures Competitors(Defaults.DefaultConfig(dates)) == Ok(DefaultTable[1..])
  {
    var t := Defaults.DefaultConfig(dates);
    var items := seq(|Defaults.DefaultCompetitors|, i requires 0 <= i < |Defaults.DefaultCompetitors| =>
                     Defaults.CompetitorTree(Defaults.DefaultCompetitors[i]));
    assert GetPath(t, ["market_data", "competitors"]) == Ok(Items(items));
    ReadCompetitorTree(Defaults.DefaultCompetitors[0]);
    ReadCompetitorTree(Defaults.DefaultCompetitors[1]);
    ReadCompetitorTree(Defaults.DefaultCompetitors[2]);
    var r := ReadEntries(items);
    assert r.Ok?;
    assert r.value == DefaultTable[1..];
  }

  /** The default configuration gives our service first and the three competitors after it. */
  lemma DefaultMarketTable(dates: seq<string>)
    ensures MarketTable(Defaults.DefaultConfig(dates)) == Ok(DefaultTable)
  {
    var t := Defaults.DefaultConfig(dates);
    DefaultCompetitors(dates);
    assert [DefaultTable[0]] + DefaultTable[1..] == DefaultTable;
    Defaults.DefaultScalars(dates);
  }

  /**
   * With the default data: position 1 out of 4, satisfaction 4 out of 4, a
   * 15-point gap to the leader, competitive pricing and a ratio of 0.078125.
   */
  lemma DefaultMetrics()
    ensures PositionRank(DefaultTable) == (1, 4)
    ensures SatisfactionRank(DefaultTable) == (4, 4)
    ensures GapToLeader(15.0, Shares(DefaultTable[1..])) == Ok(15.0)
    ensures PricingLabel(1.0, Prices(DefaultTable[1..])) == Ok("competitive")
    ensures PriceCompetitiveness(1.0, Prices(DefaultTable[1..])) == Ok(0.078125)
  {
    DefaultShareMetrics();
    DefaultSatisfactionRank();
    DefaultPriceMetrics();
  }

  /** The default shares: we rank first of four, 15 points behind the largest competitor. */
  lemma DefaultShareMetrics()
    ensures PositionRank(DefaultTable) == (1, 4)
    ensures GapToLeader(15.0, Shares(DefaultTable[1..])) == Ok(15.0)
  {
    var shares := Shares(DefaultTable[1..]);
    assert shares == [30.0, 25.0, 30.0];
    assert Max(shares) == 30.0 by {
      assert shares[..2] == [30.0, 25.0];
      assert shares[..2][..1] == [30.0];
    }
  }

  /** The default satisfactions: we rank fourth of four. */
  lemma DefaultSatisfactionRank()
    ensures SatisfactionRank(DefaultTable) == (4, 4)
  {
    assert Satisfactions(DefaultTable[1..]) == [4.2, 4.0, 4.3];
  }

  /** The default prices: ours is below the competitors' mean of 3.2 / 3. */
  lemma DefaultPriceMetrics()
    ensures PricingLabel(1.0, Prices(DefaultTable[1..])) == Ok("competitive")
    ensures PriceCompetitiveness(1.0, Prices(DefaultTable[1..])) == Ok(0.078125)
  {
    var prices := Prices(DefaultTable[1..]);
    assert prices == [1.2, 0.9, 1.1];
    Sum3(1.2, 0.9, 1.1);
  }

  /** The default industry series climbs from 5.0 to 7.2 over 12 months. */
  lemma DefaultIndustryRate(dates: seq<string>)
    ensures IndustryRate(Defaults.DefaultConfig(dates)) == Ok((7.2 - 5.0) / 12.0)
  {
    var t := Defaults.DefaultConfig(dates);
    assert IndustryHistory(t) == Ok(Items(Defaults.Nums(Defaults.DefaultIndustryGrowth)));
  }

  /** The default share history never falls, so its average growth is not negative. */
  lemma DefaultAverageGrowthNonNegative(dates: seq<string>)
    ensures AverageGrowthRate(Defaults.DefaultConfig(dates)).Ok?
    ensures AverageGrowthRate(Defaults.DefaultConfig(dates)).value >= 0.0
  {
    var t := Defaults.DefaultConfig(dates);
    var h := Defaults.Nums(Defaults.DefaultShareHistory);
    assert ShareHistory(t) == Ok(Items(h));
    NonDecreasingHistoryRates(h);
    var rates := GrowthRates(h).value;
    SumNonNegative(rates);
    assert |rates| == 11;
  }

  lemma {:induction false} SumNonNegative(s: seq<real>)
    requires forall i :: 0 <= i < |s| ==> s[i] >= 0.0
    ensures Sum(s) >= 0.0
  {
    if s != [] {
      SumNonNegative(s[..|s| - 1]);
    }
  }
}
