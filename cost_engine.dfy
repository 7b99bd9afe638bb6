/**
 * Per-minute service cost (main.py `calculate_total_cost_per_minute`), the one
 * formula every panel of the dashboard recomputes.
 */
module CostEngine {
  import opened Wrappers
  import opened ConfigTree
  import Defaults

  /** The seven unit rates the cost formula reads from `service_costs`. */
  datatype ServiceCosts = ServiceCosts(
    inputCostPer1k: real, inputTokensPerMinute: real,
    outputCostPer1k: real, outputTokensPerMinute: real,
    sttCostPerMinute: real,
    ttsCostPer1kChars: real, ttsCharsPerMinute: real)

  const InputCostPath := ["service_costs", "text_generation", "input", "cost_per_1k_tokens"]
  const InputTokensPath := ["service_costs", "text_generation", "input", "tokens_per_minute"]
  const OutputCostPath := ["service_costs", "text_generation", "output", "cost_per_1k_tokens"]
  const OutputTokensPath := ["service_costs", "text_generation", "output", "tokens_per_minute"]
  const SttCostPath := ["service_costs", "audio_recognition", "deepgram_nova2", "cost_per_minute"]
  const TtsCostPath := ["service_costs", "audio_generation", "11labs_scale", "cost_per_1k_chars"]
  const TtsCharsPath := ["service_costs", "audio_generation", "11labs_scale", "chars_per_minute"]

  /**
   * The rates, read in the order the formula evaluates them: both operands of
   * a product are looked up before they are multiplied, and the STT rate is
   * first added in the final sum, so a non-number there fails only after the
   * TTS lookups.
   */
  function ReadServiceCosts(config: Tree): (r: Result<ServiceCosts>)
    ensures r.Ok? <==>
      && GetNum(config, InputCostPath).Ok? && GetNum(config, InputTokensPath).Ok?
      && GetNum(config, OutputCostPath).Ok? && GetNum(config, OutputTokensPath).Ok?
      && GetNum(config, SttCostPath).Ok?
      && GetNum(config, TtsCostPath).Ok? && GetNum(config, TtsCharsPath).Ok?
    ensures r.Ok? ==>
      && GetNum(config, InputCostPath) == Ok(r.value.inputCostPer1k)
      && GetNum(config, InputTokensPath) == Ok(r.value.inputTokensPerMinute)
      && GetNum(config, OutputCostPath) == Ok(r.value.outputCostPer1k)
      && GetNum(config, OutputTokensPath) == Ok(r.value.outputTokensPerMinute)
      && GetNum(config, SttCostPath) == Ok(r.value.sttCostPerMinute)
      && GetNum(config, TtsCostPath) == Ok(r.value.ttsCostPer1kChars)
      && GetNum(config, TtsCharsPath) == Ok(r.value.ttsCharsPerMinute)
  {
    var inCost :- GetPath(config, InputCostPath);
    var inTokens :- GetPath(config, InputTokensPath);
    var input :- Factors(inCost, inTokens);
    var outCost :- GetPath(config, OutputCostPath);
    var outTokens :- GetPath(config, OutputTokensPath);
    var output :- Factors(outCost, outTokens);
    var stt :- GetPath(config, SttCostPath);
    var ttsCost :- GetPath(config, TtsCostPath);
    var ttsChars :- GetPath(config, TtsCharsPath);
    var tts :- Factors(ttsCost, ttsChars);
    var sttRate :- AsNumber(stt);
    Ok(ServiceCosts(input.0, input.1, output.0, output.1, sttRate, tts.0, tts.1))
  }

  /**
   * A non-number input rate beside a missing token count: the token lookup
   * fails before the product is attempted, so the error is the KeyError.
   */
  lemma LookupBeforeArithmetic()
    ensures var input := Node(map["cost_per_1k_tokens" := Text("x")]);
            var t := Node(map["service_costs" := Node(map["text_generation" := Node(map["input" := input])])]);
      CalculateTotalCostPerMinute(t) == Err(KeyError("tokens_per_minute"))
  {
    var input := Node(map["cost_per_1k_tokens" := Text("x")]);
    var gen := Node(map["input" := input]);
    var costs := Node(map["text_generation" := gen]);
    var t := Node(map["service_costs" := costs]);
    assert GetPath(input, ["cost_per_1k_tokens"]) == Ok(Text("x"));
    assert GetPath(t, InputCostPath) == Ok(Text("x"));
    assert GetPath(input, ["tokens_per_minute"]) == Err(KeyError("tokens_per_minute"));
    assert GetPath(t, InputTokensPath) == Err(KeyError("tokens_per_minute"));
  }

  /** Text generation per minute: input and output token costs, each priced per 1000 tokens. */
  function TextGenerationCost(c: ServiceCosts): real
  {
    c.inputCostPer1k * c.inputTokensPerMinute / 1000.0 + c.outputCostPer1k * c.outputTokensPerMinute / 1000.0
  }

  function AudioRecognitionCost(c: ServiceCosts): real
  {
    c.sttCostPerMinute
  }

  /** Audio generation per minute: characters spoken, priced per 1000 characters. */
  function AudioGenerationCost(c: ServiceCosts): real
  {
    c.ttsCostPer1kChars * c.ttsCharsPerMinute / 1000.0
  }

  /** The per-minute total: the three service costs summed. */
  function TotalCostPerMinute(c: ServiceCosts): real
  {
    TextGenerationCost(c) + AudioRecognitionCost(c) + AudioGenerationCost(c)
  }

  /** main.py `calculate_total_cost_per_minute(config)`. */
  function CalculateTotalCostPerMinute(config: Tree): (r: Result<real>)
    ensures r.Ok? <==> ReadServiceCosts(config).Ok?
    ensures r.Ok? ==>
      var c := ReadServiceCosts(config).value;
      r.value == c.inputCostPer1k * c.inputTokensPerMinute / 1000.0
               + c.outputCostPer1k * c.outputTokensPerMinute / 1000.0
               + c.sttCostPerMinute
               + c.ttsCostPer1kChars * c.ttsCharsPerMinute / 1000.0
  {
    var rc := ReadServiceCosts(config);
    if rc.Err? then Err(rc.error) else Ok(TotalCostPerMinute(rc.value))
  }

  predicate NonNegative(c: ServiceCosts)
  {
    && c.inputCostPer1k >= 0.0 && c.inputTokensPerMinute >= 0.0
    && c.outputCostPer1k >= 0.0 && c.outputTokensPerMinute >= 0.0
    && c.sttCostPerMinute >= 0.0
    && c.ttsCostPer1kChars >= 0.0 && c.ttsCharsPerMinute >= 0.0
  }

  /** Every rate of `c` is at most the matching rate of `d`. */
  predicate RatesAtMost(c: ServiceCosts, d: ServiceCosts)
  {
    && c.inputCostPer1k <= d.inputCostPer1k && c.inputTokensPerMinute <= d.inputTokensPerMinute
    && c.outputCostPer1k <= d.outputCostPer1k && c.outputTokensPerMinute <= d.outputTokensPerMinute
    && c.sttCostPerMinute <= d.sttCostPerMinute
    && c.ttsCostPer1kChars <= d.ttsCostPer1kChars && c.ttsCharsPerMinute <= d.ttsCharsPerMinute
  }

  lemma ProductMonotone(a: real, b: real, a': real, b': real)
    requires 0.0 <= a <= a' && 0.0 <= b <= b'
    ensures a * b <= a' * b'
  {
    assert a * b <= a' * b;
    assert a' * b <= a' * b';
  }

  lemma TotalNonNegative(c: ServiceCosts)
    requires NonNegative(c)
    ensures TotalCostPerMinute(c) >= 0.0
  {
    ProductMonotone(0.0, 0.0, c.inputCostPer1k, c.inputTokensPerMinute);
    ProductMonotone(0.0, 0.0, c.outputCostPer1k, c.outputTokensPerMinute);
    ProductMonotone(0.0, 0.0, c.ttsCostPer1kChars, c.ttsCharsPerMinute);
  }

  /** Raising any rate never lowers the per-minute cost. */
  lemma TotalMonotone(c: ServiceCosts, d: ServiceCosts)
    requires NonNegative(c) && RatesAtMost(c, d)
    ensures TotalCostPerMinute(c) <= TotalCostPerMinute(d)
  {
    ProductMonotone(c.inputCostPer1k, c.inputTokensPerMinute, d.inputCostPer1k, d.inputTokensPerMinute);
    ProductMonotone(c.outputCostPer1k, c.outputTokensPerMinute, d.outputCostPer1k, d.outputTokensPerMinute);
    ProductMonotone(c.ttsCostPer1kChars, c.ttsCharsPerMinute, d.ttsCostPer1kChars, d.ttsCharsPerMinute);
  }

  const DefaultServiceCosts := ServiceCosts(0.005, 0.5, 0.015, 0.5, 0.0036, 0.18, 150.0)

  /** Each of the seven rate paths of the default configuration holds a number. */
  lemma DefaultTextRates(dates: seq<string>)
    ensures var t := Defaults.DefaultConfig(dates);
      && GetNum(t, InputCostPath) == Ok(0.005)
      && GetNum(t, InputTokensPath) == Ok(0.5)
      && GetNum(t, OutputCostPath) == Ok(0.015)
      && GetNum(t, OutputTokensPath) == Ok(0.5)
  {
  }

  lemma DefaultAudioRates(dates: seq<string>)
    ensures var t := Defaults.DefaultConfig(dates);
      && GetNum(t, SttCostPath) == Ok(0.0036)
      && GetNum(t, TtsCostPath) == Ok(0.18)
      && GetNum(t, TtsCharsPath) == Ok(150.0)
  {
  }

  /** main.py lines 20-98: the default configuration yields the default rates. */
  lemma ReadDefaultServiceCosts(dates: seq<string>)
    ensures ReadServiceCosts(Defaults.DefaultConfig(dates)) == Ok(DefaultServiceCosts)
  {
    DefaultTextRates(dates);
    DefaultAudioRates(dates);
  }

  /** With the default configuration the cost is 0.0000025 + 0.0000075 + 0.0036 + 0.027 dollars a minute. */
  lemma DefaultTotalCostPerMinute(dates: seq<string>)
    ensures CalculateTotalCostPerMinute(Defaults.DefaultConfig(dates)) == Ok(0.03061)
  {
    ReadDefaultServiceCosts(dates);
  }
}
