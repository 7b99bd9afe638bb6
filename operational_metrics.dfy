/**
 * operational_metrics.py: the simulated history of the three operational
 * metrics (one row per day, the normal draws passed in) and the daily
 * efficiency arithmetic.
 */
module OperationalMetrics {
  import opened Wrappers
  import opened ConfigTree
  import opened Numeric
  import Defaults

  /** The default history length. */
  const DefaultDays: nat := 90

  /** The configured averages, read in the order the source builds `base_data`. */
  datatype Base = Base(handling: Tree, resolution: Tree, satisfaction: Tree)

  /** The three draws of one day: `normal(0, 0.5)`, `normal(0, 0.02)` and `normal(0, 0.1)`. */
  datatype Noise = Noise(handling: real, resolution: real, satisfaction: real)

  /** One row: the day's offset back from today and the three simulated metrics. */
  datatype DayRow = DayRow(offset: nat, handling: real, resolution: real, satisfaction: real)

  function ReadBase(config: Tree): (r: Result<Base>)
    ensures r.Ok? <==> GetPath(config, ["operational_metrics", "avg_handling_time"]).Ok?
                       && GetPath(config, ["operational_metrics", "first_call_resolution"]).Ok?
                       && GetPath(config, ["operational_metrics", "customer_satisfaction"]).Ok?
  {
    var handling :- GetPath(config, ["operational_metrics", "avg_handling_time"]);
    var resolution :- GetPath(config, ["operational_metrics", "first_call_resolution"]);
    var satisfaction :- GetPath(config, ["operational_metrics", "customer_satisfaction"]);
    Ok(Base(handling, resolution, satisfaction))
  }

  predicate AllNumbers(b: Base)
  {
    b.handling.Num? && b.resolution.Num? && b.satisfaction.Num?
  }

  /** Day `i`: handling time unclamped, first-call resolution in `[0, 1]`, satisfaction in `[1, 5]`. */
  function Day(b: Base, i: nat, e: Noise): (r: DayRow)
    requires AllNumbers(b)
    ensures r.offset == i && r.handling == b.handling.x + e.handling
    ensures 0.0 <= r.resolution <= 1.0 && 1.0 <= r.satisfaction <= 5.0
  {
    DayRow(i,
           b.handling.x + e.handling,
           Clamp(b.resolution.x + e.resolution, 0.0, 1.0),
           Clamp(b.satisfaction.x + e.satisfaction, 1.0, 5.0))
  }

  /**
   * What `generate_historical_data` returns for `numDays` days and these
   * draws. The additions only run inside the loop, so a non-number average
   * fails only when there is at least one day.
   */
  function HistoricalData(config: Tree, numDays: nat, noise: seq<Noise>): (r: Result<seq<DayRow>>)
    requires |noise| == numDays
    ensures r.Ok? <==> ReadBase(config).Ok? && (numDays == 0 || AllNumbers(ReadBase(config).value))
    ensures r.Ok? ==> |r.value| == numDays && forall i :: 0 <= i < numDays ==> r.value[i].offset == i
  {
    var b :- ReadBase(config);
    if numDays > 0 && !AllNumbers(b) then Err(TypeError)
    else Ok(seq(numDays, i requires 0 <= i < numDays => Day(b, i, noise[i])))
  }

  /** The loop of `generate_historical_data`, appending one row per day offset. */
  method GenerateHistoricalData(config: Tree, numDays: nat, noise: seq<Noise>) returns (r: Result<seq<DayRow>>)
    requires |noise| == numDays
    ensures r == HistoricalData(config, numDays, noise)
  {
    var base := ReadBase(config);
    if base.Err? {
      return Err(base.error);
    }
    var b := base.value;
    var data: seq<DayRow> := [];
    var i := 0;
    while i < numDays
      invariant 0 <= i <= numDays
      invariant i > 0 ==> AllNumbers(b)
      invariant |data| == i
      invariant forall k :: 0 <= k < i ==> data[k] == Day(b, k, noise[k])
    {
      if !AllNumbers(b) {
        return Err(TypeError);
      }
      data := data + [Day(b, i, noise[i])];
      i := i + 1;
    }
    assert data == seq(numDays, k requires 0 <= k < numDays => Day(b, k, noise[k]));
    return Ok(data);
  }

  /**
   * One row per day offset, in order; first-call resolution always in
   * `[0, 1]` and satisfaction in `[1, 5]`, each equal to base plus draw when
   * that is already in range; handling time is base plus draw, unclamped.
   */
  lemma HistoryShape(config: Tree, numDays: nat, noise: seq<Noise>)
    requires |noise| == numDays && HistoricalData(config, numDays, noise).Ok?
    ensures var rows := HistoricalData(config, numDays, noise).value;
      && |rows| == numDays
      && (forall i :: 0 <= i < numDays ==> rows[i].offset == i)
      && (forall i :: 0 <= i < numDays ==> 0.0 <= rows[i].resolution <= 1.0)
      && (forall i :: 0 <= i < numDays ==> 1.0 <= rows[i].satisfaction <= 5.0)
  {
  }

  lemma HistoryValues(config: Tree, numDays: nat, noise: seq<Noise>, i: nat)
    requires |noise| == numDays && i < numDays && HistoricalData(config, numDays, noise).Ok?
    ensures var b := ReadBase(config).value;
            var row := HistoricalData(config, numDays, noise).value[i];
      && AllNumbers(b)
      && row.handling == b.handling.x + noise[i].handling
      && (0.0 <= b.resolution.x + noise[i].resolution <= 1.0 ==> row.resolution == b.resolution.x + noise[i].resolution)
      && (1.0 <= b.satisfaction.x + noise[i].satisfaction <= 5.0 ==> row.satisfaction == b.satisfaction.x + noise[i].satisfaction)
  {
  }

  /** A non-number average is only an error once there is a day to compute. */
  lemma NoDaysNoArithmetic(config: Tree)
    requires ReadBase(config).Ok?
    ensures HistoricalData(config, 0, []) == Ok([])
  {
    assert |HistoricalData(config, 0, []).value| == 0;
  }

  /** The default averages are numbers: 5.0 minutes, 0.85 and 4.5. */
  lemma DefaultBase(dates: seq<string>)
    ensures ReadBase(Defaults.DefaultConfig(dates)) == Ok(Base(Num(5.0), Num(0.85), Num(4.5)))
  {
    var t := Defaults.DefaultConfig(dates);
    assert Get(t, "operational_metrics") == Ok(Defaults.OperationalDefaults());
  }

  // ---------------------------------------------------------------------------
  // Efficiency.

  /** The workday the utilization assumes: 8 hours of 60 minutes. */
  const MinutesPerAgentDay: int := 8 * 60

  function TotalDailyCalls(agents: int, callsPerDay: int): int
  {
    agents * callsPerDay
  }

  function TotalDailyMinutes(agents: int, callsPerDay: int, duration: real): real
  {
    TotalDailyCalls(agents, callsPerDay) as real * duration
  }

  /** `total_daily_minutes / (agents * 480) * 100`; no agents is a division by zero. */
  function Utilization(agents: int, callsPerDay: int, duration: real): (r: Result<real>)
    ensures r.Ok? <==> agents != 0
  {
    var available := agents * MinutesPerAgentDay;
    if available == 0 then Err(ZeroDivisionError)
    else Ok(TotalDailyMinutes(agents, callsPerDay, duration) / available as real * 100.0)
  }

  /** One agent's talk time as a percentage of the 480-minute workday. */
  function AgentLoad(callsPerDay: int, duration: real): real
  {
    callsPerDay as real * duration / 480.0 * 100.0
  }

  /** Utilization is one agent's talk time over the workday: the agent count cancels. */
  lemma UtilizationPerAgent(agents: int, callsPerDay: int, duration: real)
    requires agents != 0
    ensures Utilization(agents, callsPerDay, duration) == Ok(AgentLoad(callsPerDay, duration))
  {
    var a := agents as real;
    var c := callsPerDay as real;
    var minutes := TotalDailyMinutes(agents, callsPerDay, duration);
    var available := (agents * MinutesPerAgentDay) as real;
    assert minutes == a * (c * duration) by {
      assert (agents * callsPerDay) as real == a * c;
    }
    assert available == a * 480.0;
    Cancel(a, c * duration, 480.0);
    assert minutes / available == c * duration / 480.0;
    assert Utilization(agents, callsPerDay, duration) == Ok(minutes / available * 100.0);
    assert minutes / available * 100.0 == AgentLoad(callsPerDay, duration);
  }

  lemma Cancel(a: real, x: real, d: real)
    requires a != 0.0 && d != 0.0
    ensures a * x / (a * d) == x / d
  {
    assert a * x == (x / d) * (a * d);
  }

  /** Two non-empty teams with the same per-agent load have the same utilization. */
  lemma UtilizationIndependentOfAgents(a1: int, a2: int, callsPerDay: int, duration: real)
    requires a1 != 0 && a2 != 0
    ensures Utilization(a1, callsPerDay, duration) == Utilization(a2, callsPerDay, duration)
  {
    UtilizationPerAgent(a1, callsPerDay, duration);
    UtilizationPerAgent(a2, callsPerDay, duration);
  }

  /** With duration 5 minutes and 50 calls a day, an agent is busy 250 of 480 minutes. */
  lemma ExampleUtilization()
    ensures Utilization(100, 50, 5.0) == Ok(250.0 / 480.0 * 100.0)
  {
    UtilizationPerAgent(100, 50, 5.0);
    assert AgentLoad(50, 5.0) == 250.0 / 480.0 * 100.0;
  }
}
