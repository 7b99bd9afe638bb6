/**
 * service_configuration.py: the session state behind the configuration
 * page (the configuration dict and the three selected services), the
 * dotted-key update it applies on every widget change, the per-minute cost
 * of each selected service and the savings against a chosen baseline.
 */
module ServiceConfiguration {
  import opened Wrappers
  import opened ConfigTree
  import opened Numeric
  import CostEngine
  import Defaults

  // ---------------------------------------------------------------------------
  // Session state.

  /** The four session entries the page keeps; None while an entry is absent. */
  datatype SessionState = SessionState(config: Option<Tree>, llm: Option<Tree>, stt: Option<Tree>, tts: Option<Tree>)

  /** The session after a step, and the exception that stopped the page run, if any. */
  datatype Outcome = Outcome(state: SessionState, err: Option<Error>)

  const EmptySession := SessionState(None, None, None, None)

  /** `config['service_costs'][section].get(key, default)`. */
  function OptionDefault(cfg: Tree, section: string, key: string, default: string): Result<Tree>
  {
    var d :- GetPath(cfg, ["service_costs", section]);
    GetOr(d, key, Text(default))
  }

  /** The option kept when it is already in the session, otherwise its configured or default value. */
  function Filled(current: Option<Tree>, cfg: Tree, section: string, key: string, default: string): Result<Tree>
  {
    if current.Some? then Ok(current.value) else OptionDefault(cfg, section, key, default)
  }

  /**
   * `initialize_config_state(config)`: each entry is set only when absent,
   * in the order config, LLM, STT, TTS; a failing lookup stops the run with
   * the entries set so far kept.
   */
  function Initialized(s: SessionState, initial: Tree): (r: Outcome)
    ensures r.state.config.Some?
  {
    var cfg := if s.config.Some? then s.config.value else initial;
    var s1 := s.(config := Some(cfg));
    match Filled(s1.llm, cfg, "text_generation", "model", "gpt-4o")
    case Err(e) => Outcome(s1, Some(e))
    case Ok(llm) =>
      var s2 := s1.(llm := Some(llm));
      match Filled(s2.stt, cfg, "audio_recognition", "provider", "deepgram")
      case Err(e) => Outcome(s2, Some(e))
      case Ok(stt) =>
        var s3 := s2.(stt := Some(stt));
        match Filled(s3.tts, cfg, "audio_generation", "provider", "elevenlabs")
        case Err(e) => Outcome(s3, Some(e))
        case Ok(tts) => Outcome(s3.(tts := Some(tts)), None)
  }

  /**
   * Only absent entries are set: a present entry keeps its value, the
   * configuration is the session's own when it has one, and a run that goes
   * through leaves all four entries set.
   */
  lemma InitializeSetsOnlyAbsent(s: SessionState, initial: Tree)
    ensures var r := Initialized(s, initial);
      && r.state.config == Some(if s.config.Some? then s.config.value else initial)
      && (s.llm.Some? ==> r.state.llm == s.llm)
      && (s.stt.Some? ==> r.state.stt == s.stt)
      && (s.tts.Some? ==> r.state.tts == s.tts)
      && (r.err.None? ==> r.state.llm.Some? && r.state.stt.Some? && r.state.tts.Some?)
      && (s.llm.Some? && s.stt.Some? && s.tts.Some? ==> r == Outcome(r.state, None))
  {
  }

  /** Calling `initialize_config_state` a second time, with any argument, changes nothing. */
  lemma InitializeIdempotent(s: SessionState, initial: Tree, again: Tree)
    ensures var r := Initialized(s, initial);
      Initialized(r.state, again) == r
  {
    var r := Initialized(s, initial);
    var cfg := if s.config.Some? then s.config.value else initial;
    assert r.state.config == Some(cfg);
    var s1 := s.(config := Some(cfg));
    assert s1.(config := Some(cfg)) == s1;
  }

  /**
   * On a fresh session with the default configuration, where none of the
   * three option keys is stored, the options take their defaults.
   */
  lemma InitializeDefaults(dates: seq<string>)
    ensures var d := Defaults.DefaultConfig(dates);
      Initialized(EmptySession, d) ==
        Outcome(SessionState(Some(d), Some(Text("gpt-4o")), Some(Text("deepgram")), Some(Text("elevenlabs"))), None)
  {
    var d := Defaults.DefaultConfig(dates);
    assert GetPath(d, ["service_costs", "text_generation"]) == Ok(Defaults.TextGenerationDefaults());
    assert GetPath(d, ["service_costs", "audio_recognition"]) == Ok(Defaults.AudioRecognitionDefaults());
    assert GetPath(d, ["service_costs", "audio_generation"]) == Ok(Defaults.AudioGenerationDefaults());
  }

  // ---------------------------------------------------------------------------
  // Dotted-key update.

  /**
   * `update_config(key, value)` on the session's configuration `t`: the copy
   * needs `t.copy()`, which numbers and strings lack; then the walk of
   * `key.split('.')`.
   */
  function ConfigUpdate(t: Tree, key: string, v: Tree): (r: Result<Tree>)
    ensures t.Num? || t.Text? ==> r == Err(AttributeError)
    ensures r.Ok? ==> r.value.Node?
    ensures r.Err? ==> r.error == TypeError || r.error == AttributeError
  {
    if t.Num? || t.Text? then Err(AttributeError) else SetPath(t, Split(key, '.'), v)
  }

  /** The session after `update_config`: a failure leaves the configuration as it was. */
  function ConfigUpdated(s: SessionState, key: string, v: Tree): (r: Outcome)
    ensures r.state.(config := s.config) == s
    ensures r.err.Some? ==> r.state == s
    ensures r.err.None? ==> r.state.config.Some? && r.state.config.value.Node?
  {
    if s.config.None? then Outcome(s, Some(AttributeError))
    else
      match ConfigUpdate(s.config.value, key, v)
      case Ok(t) => Outcome(s.(config := Some(t)), None)
      case Err(e) => Outcome(s, Some(e))
  }

  /** After a successful update the lookup of the split key yields the value. */
  lemma UpdateConfigLookup(t: Tree, key: string, v: Tree)
    requires ConfigUpdate(t, key, v).Ok?
    ensures GetPath(ConfigUpdate(t, key, v).value, Split(key, '.')) == Ok(v)
  {
    LookupAfterSetPath(t, Split(key, '.'), v);
  }

  /** A path that leaves the split key at some level finds what it found before. */
  lemma UpdateConfigOffPath(t: Tree, key: string, v: Tree, p: seq<string>, j: nat)
    requires ConfigUpdate(t, key, v).Ok?
    requires var keys := Split(key, '.');
      j < |p| && j < |keys| && p[..j] == keys[..j] && p[j] != keys[j]
    ensures Lookup(ConfigUpdate(t, key, v).value, p) == Lookup(t, p)
  {
    OffPathUnchanged(t, Split(key, '.'), v, p, j);
  }

  /** A key joined from dot-free segments walks exactly those segments. */
  lemma UpdateConfigSegments(t: Tree, parts: seq<string>, v: Tree)
    requires |parts| >= 1 && forall i :: 0 <= i < |parts| ==> '.' !in parts[i]
    requires t.Node?
    ensures ConfigUpdate(t, Join(parts, '.'), v) == SetPath(t, parts, v)
  {
    SplitJoin(parts, '.');
  }

  /** Assigning the same value under the same key twice is the same as once. */
  lemma UpdateConfigIdempotent(t: Tree, key: string, v: Tree)
    requires ConfigUpdate(t, key, v).Ok?
    ensures ConfigUpdate(ConfigUpdate(t, key, v).value, key, v) == ConfigUpdate(t, key, v)
  {
    SetPathIdempotent(t, Split(key, '.'), v);
  }

  // ---------------------------------------------------------------------------
  // The selected services and the rate widgets.

  datatype Service = Llm | Stt | Tts

  /** Where a change of selection is recorded: `text_generation.model` or the `provider` of the audio section. */
  function OptionPath(svc: Service): seq<string>
  {
    match svc
    case Llm => ["service_costs", "text_generation", "model"]
    case Stt => ["service_costs", "audio_recognition", "provider"]
    case Tts => ["service_costs", "audio_generation", "provider"]
  }

  function OptionOf(s: SessionState, svc: Service): Option<Tree>
  {
    match svc
    case Llm => s.llm
    case Stt => s.stt
    case Tts => s.tts
  }

  function WithOption(s: SessionState, svc: Service, v: Option<Tree>): SessionState
  {
    match svc
    case Llm => s.(llm := v)
    case Stt => s.(stt := v)
    case Tts => s.(tts := v)
  }

  /** A radio choice that differs from the session's option is stored in the session and in the configuration. */
  function Selected(s: SessionState, svc: Service, choice: string): (r: Outcome)
    ensures OptionOf(r.state, svc) == Some(Text(choice))
    ensures r.err.None? && OptionOf(s, svc) != Some(Text(choice)) ==> r.state.config.Some?
  {
    if OptionOf(s, svc) == Some(Text(choice)) then Outcome(s, None)
    else ConfigUpdated(WithOption(s, svc, Some(Text(choice))), Join(OptionPath(svc), '.'), Text(choice))
  }

  /** A number input: the dict it reads its initial value from, the entry, and the fallback value. */
  datatype RateField = RateField(record: seq<string>, field: string, default: real)

  function FieldPath(f: RateField): seq<string>
  {
    f.record + [f.field]
  }

  /** `config[...][...].get(field, default)`, which the widget needs to be a number. */
  function Shown(t: Tree, f: RateField): Result<real>
  {
    var rec :- GetPath(t, f.record);
    var v :- GetOr(rec, f.field, Num(f.default));
    if v.Num? then Ok(v.x) else Err(TypeError)
  }

  /**
   * A number input followed by `update_config` of its dotted key: the value
   * entered, or the value shown when the widget is left as it is.
   */
  function Entered(s: SessionState, f: RateField, input: Option<real>): (r: Outcome)
    ensures r.state.(config := s.config) == s
    ensures r.err.Some? ==> r.state == s
    ensures s.config.None? ==> r.err == Some(AttributeError)
  {
    if s.config.None? then Outcome(s, Some(AttributeError))
    else
      match Shown(s.config.value, f)
      case Err(e) => Outcome(s, Some(e))
      case Ok(shown) => ConfigUpdated(s, Join(FieldPath(f), '.'), Num(if input.Some? then input.value else shown))
  }

  function InputField(llm: string): RateField
  {
    RateField(["service_costs", "text_generation", "input"], "cost_per_1k_tokens", if llm == "gpt-4o" then 0.005 else 0.003)
  }

  function OutputField(llm: string): RateField
  {
    RateField(["service_costs", "text_generation", "output"], "cost_per_1k_tokens", if llm == "gpt-4o" then 0.015 else 0.009)
  }

  /** Deepgram's rate lives in its own record; Whisper's is stored as a bare number beside the records. */
  function SttField(stt: string): RateField
  {
    if stt == "deepgram" then RateField(["service_costs", "audio_recognition", "deepgram_nova2"], "cost_per_minute", 0.0036)
    else RateField(["service_costs", "audio_recognition"], "whisper", 0.006)
  }

  /** ElevenLabs' rate lives in its own record; Deepgram TTS's is stored as a bare number beside the records. */
  function TtsField(tts: string): RateField
  {
    if tts == "elevenlabs" then RateField(["service_costs", "audio_generation", "11labs_scale"], "cost_per_1k_chars", 0.18)
    else RateField(["service_costs", "audio_generation"], "deepgram_tts", 0.15)
  }

  /** Every segment of a configuration path is free of dots, so its joined key splits back into it. */
  predicate DotFree(p: seq<string>)
  {
    forall i :: 0 <= i < |p| ==> '.' !in p[i]
  }

  lemma SectionsDotFree()
    ensures '.' !in "service_costs" && '.' !in "text_generation"
    ensures '.' !in "audio_recognition" && '.' !in "audio_generation"
  {
  }

  lemma EntriesDotFree()
    ensures '.' !in "input" && '.' !in "output" && '.' !in "cost_per_1k_tokens"
    ensures '.' !in "deepgram_nova2" && '.' !in "cost_per_minute" && '.' !in "whisper"
    ensures '.' !in "11labs_scale" && '.' !in "cost_per_1k_chars" && '.' !in "deepgram_tts"
    ensures '.' !in "model" && '.' !in "provider"
  {
  }

  lemma FieldPathsDotFree(llm: string, stt: string, tts: string)
    ensures DotFree(FieldPath(InputField(llm))) && DotFree(FieldPath(OutputField(llm)))
    ensures DotFree(FieldPath(SttField(stt))) && DotFree(FieldPath(TtsField(tts)))
    ensures DotFree(OptionPath(Llm)) && DotFree(OptionPath(Stt)) && DotFree(OptionPath(Tts))
  {
    SectionsDotFree();
    EntriesDotFree();
  }

  /**
   * After a selection goes through, the session's option is the choice, and
   * when that was a change the configuration records it under the option key.
   */
  lemma SelectRecordsChoice(s: SessionState, svc: Service, choice: string)
    requires Selected(s, svc, choice).err.None?
    ensures var r := Selected(s, svc, choice).state;
      && OptionOf(r, svc) == Some(Text(choice))
      && (OptionOf(s, svc) != Some(Text(choice)) ==> GetPath(r.config.value, OptionPath(svc)) == Ok(Text(choice)))
  {
    FieldPathsDotFree("", "", "");
    if OptionOf(s, svc) != Some(Text(choice)) {
      var key := Join(OptionPath(svc), '.');
      SplitJoin(OptionPath(svc), '.');
      UpdateConfigLookup(s.config.value, key, Text(choice));
    }
  }

  /** After a rate goes through, its full path holds the number entered (or shown, when left as it is). */
  lemma EnteredStoresRate(s: SessionState, f: RateField, input: Option<real>)
    requires DotFree(FieldPath(f))
    requires Entered(s, f, input).err.None?
    ensures var r := Entered(s, f, input).state;
      && r.config.Some?
      && GetPath(r.config.value, FieldPath(f)) ==
           Ok(Num(if input.Some? then input.value else Shown(s.config.value, f).value))
      && r.(config := s.config) == s
  {
    var key := Join(FieldPath(f), '.');
    SplitJoin(FieldPath(f), '.');
    var v := Num(if input.Some? then input.value else Shown(s.config.value, f).value);
    UpdateConfigLookup(s.config.value, key, v);
  }

  /** A widget left as it is over a rate that is already stored writes it back: nothing changes. */
  lemma UntouchedRateKeepsConfig(s: SessionState, f: RateField, x: real)
    requires DotFree(FieldPath(f))
    requires s.config.Some? && s.config.value.Node? && GetPath(s.config.value, FieldPath(f)) == Ok(Num(x))
    ensures Entered(s, f, None) == Outcome(s, None)
  {
    var t := s.config.value;
    GetPathSnoc(t, f.record, f.field);
    assert Shown(t, f) == Ok(x);
    SplitJoin(FieldPath(f), '.');
    SetPathSame(t, FieldPath(f), Num(x));
  }

  /** Looking up one more key is a dict lookup in what the shorter path finds. */
  lemma {:induction false} GetPathSnoc(t: Tree, p: seq<string>, k: string)
    ensures GetPath(t, p + [k]) == match GetPath(t, p) case Ok(c) => Get(c, k) case Err(e) => Err(e)
    decreases |p|
  {
    if p != [] {
      assert (p + [k])[0] == p[0] && (p + [k])[1..] == p[1..] + [k];
      if Get(t, p[0]).Ok? {
        GetPathSnoc(t.children[p[0]], p[1..], k);
      }
    } else {
      assert p + [k] == [k];
    }
  }

  // ---------------------------------------------------------------------------
  // The cost comparison.

  /** The record the cost of the selected STT service is read from. */
  function SttKey(stt: string): string
  {
    if stt == "deepgram" then "deepgram_nova2" else stt
  }

  /** The record the cost of the selected TTS service is read from. */
  function TtsKey(tts: string): string
  {
    if tts == "elevenlabs" then "11labs_scale" else tts
  }

  /**
   * The default providers map to the records the shared cost formula reads;
   * every other option names its record itself.
   */
  lemma ProviderKeys(stt: string, tts: string)
    ensures SttKey("deepgram") == CostEngine.SttCostPath[2]
    ensures TtsKey("elevenlabs") == CostEngine.TtsCostPath[2]
    ensures stt != "deepgram" ==> SttKey(stt) == stt
    ensures tts != "elevenlabs" ==> TtsKey(tts) == tts
  {
  }

  /** `rate * amount / 1000` for a rate per thousand units. */
  function PerThousand(rate: real, amount: real): real
  {
    rate * amount / 1000.0
  }

  /** One token term of the LLM cost; `tokens_per_minute` falls back to 0.5. */
  function LlmTerm(t: Tree, part: string): (r: Result<real>)
    ensures r.Ok? ==>
      var cost := GetPath(t, ["service_costs", "text_generation", part, "cost_per_1k_tokens"]);
      cost.Ok? && cost.value.Num?
    ensures r.Err? ==> r.error == TypeError || r.error == AttributeError || r.error.KeyError?
  {
    var cost :- GetPath(t, ["service_costs", "text_generation", part, "cost_per_1k_tokens"]);
    var rec :- GetPath(t, ["service_costs", "text_generation", part]);
    var tokens :- GetOr(rec, "tokens_per_minute", Num(0.5));
    if cost.Num? && tokens.Num? then Ok(PerThousand(cost.x, tokens.x)) else Err(TypeError)
  }

  /** `chars_per_minute`, read beside the TTS records rather than inside one, falling back to 150. */
  function ChargedChars(t: Tree): Result<Tree>
  {
    var gen :- GetPath(t, ["service_costs", "audio_generation"]);
    GetOr(gen, "chars_per_minute", Num(150.0))
  }

  /** The STT entry as the page looks it up: `cost_per_minute` inside the provider's record. */
  function SttEntryAsWritten(t: Tree, stt: string): Result<Tree>
  {
    GetPath(t, ["service_costs", "audio_recognition", SttKey(stt), "cost_per_minute"])
  }

  function SttCostAsWritten(t: Tree, stt: string): (r: Result<real>)
    ensures r.Ok? <==> SttEntryAsWritten(t, stt).Ok? && SttEntryAsWritten(t, stt).value.Num?
    ensures r.Ok? ==> SttEntryAsWritten(t, stt).value == Num(r.value)
  {
    var c :- SttEntryAsWritten(t, stt);
    AsNumber(c)
  }

  /** The TTS cost as the page reads it: `cost_per_1k_chars` inside the provider's record. */
  function TtsCostAsWritten(t: Tree, tts: string): (r: Result<real>)
    ensures r.Ok? <==> ChargedChars(t).Ok? && ChargedChars(t).value.Num?
                       && GetPath(t, ["service_costs", "audio_generation", TtsKey(tts), "cost_per_1k_chars"]).Ok?
                       && GetPath(t, ["service_costs", "audio_generation", TtsKey(tts), "cost_per_1k_chars"]).value.Num?
  {
    var c :- GetPath(t, ["service_costs", "audio_generation", TtsKey(tts), "cost_per_1k_chars"]);
    var chars :- ChargedChars(t);
    if c.Num? && chars.Num? then Ok(PerThousand(c.x, chars.x)) else Err(TypeError)
  }

  /** The STT entry looked up where the page stores it: Whisper's is the bare number. */
  function SttEntry(t: Tree, stt: string): Result<Tree>
  {
    if stt == "deepgram" then GetPath(t, ["service_costs", "audio_recognition", SttKey(stt), "cost_per_minute"])
    else GetPath(t, ["service_costs", "audio_recognition", stt])
  }

  function SttCost(t: Tree, stt: string): Result<real>
  {
    var c :- SttEntry(t, stt);
    AsNumber(c)
  }

  /** The TTS cost read where the page stores it: Deepgram TTS's is the bare number. */
  function TtsCost(t: Tree, tts: string): Result<real>
  {
    var c :- if tts == "elevenlabs" then GetPath(t, ["service_costs", "audio_generation", TtsKey(tts), "cost_per_1k_chars"])
             else GetPath(t, ["service_costs", "audio_generation", tts]);
    var chars :- ChargedChars(t);
    if c.Num? && chars.Num? then Ok(PerThousand(c.x, chars.x)) else Err(TypeError)
  }

  /** The three radio selections. */
  datatype Choices = Choices(llm: string, stt: string, tts: string)

  /** One entry of the `costs` dict: its label and its cost per minute. */
  datatype CostRow = CostRow(service: string, cost: real)

  function Label(kind: string, option: string): string
  {
    kind + " (" + option + ")"
  }

  function Assemble(ch: Choices, text: real, stt: real, tts: real): seq<CostRow>
  {
    [CostRow(Label("LLM", ch.llm), text), CostRow(Label("STT", ch.stt), stt), CostRow(Label("TTS", ch.tts), tts)]
  }

  /**
   * The `costs` dict exactly as the page builds it. The STT entry is only
   * looked up there; it first enters arithmetic in the total of line 174,
   * after the TTS term, so a non-number STT entry fails only then.
   */
  function CostsAsWritten(t: Tree, ch: Choices): (r: Result<seq<CostRow>>)
    ensures r.Ok? <==> LlmTerm(t, "input").Ok? && LlmTerm(t, "output").Ok?
                       && SttCostAsWritten(t, ch.stt).Ok? && TtsCostAsWritten(t, ch.tts).Ok?
    ensures r.Ok? ==> r.value == Assemble(ch, LlmTerm(t, "input").value + LlmTerm(t, "output").value,
                                          SttCostAsWritten(t, ch.stt).value, TtsCostAsWritten(t, ch.tts).value)
  {
    var input :- LlmTerm(t, "input");
    var output :- LlmTerm(t, "output");
    var sttEntry :- SttEntryAsWritten(t, ch.stt);
    var tts :- TtsCostAsWritten(t, ch.tts);
    var stt :- AsNumber(sttEntry);
    Ok(Assemble(ch, input + output, stt, tts))
  }

  /** The `costs` dict with each rate read where the page stores it, in the same order. */
  function Costs(t: Tree, ch: Choices): (r: Result<seq<CostRow>>)
    ensures r.Ok? <==> LlmTerm(t, "input").Ok? && LlmTerm(t, "output").Ok?
                       && SttCost(t, ch.stt).Ok? && TtsCost(t, ch.tts).Ok?
    ensures r.Ok? ==> r.value == Assemble(ch, LlmTerm(t, "input").value + LlmTerm(t, "output").value,
                                          SttCost(t, ch.stt).value, TtsCost(t, ch.tts).value)
  {
    var input :- LlmTerm(t, "input");
    var output :- LlmTerm(t, "output");
    var sttEntry :- SttEntry(t, ch.stt);
    var tts :- TtsCost(t, ch.tts);
    var stt :- AsNumber(sttEntry);
    Ok(Assemble(ch, input + output, stt, tts))
  }

  function CostValues(rows: seq<CostRow>): (r: seq<real>)
    ensures |r| == |rows| && forall i :: 0 <= i < |rows| ==> r[i] == rows[i].cost
  {
    seq(|rows|, i requires 0 <= i < |rows| => rows[i].cost)
  }

  /** `sum(costs.values())`. */
  function TotalCost(rows: seq<CostRow>): real
  {
    Sum(CostValues(rows))
  }

  /** No two entries share a label, as the keys of a dict. */
  predicate Distinct(rows: seq<CostRow>)
  {
    forall i, j :: 0 <= i < j < |rows| ==> rows[i].service != rows[j].service
  }

  /**
   * The comparison has one entry per selected service, under three distinct
   * labels, and its total is the LLM, STT and TTS costs added up.
   */
  lemma CostsShape(t: Tree, ch: Choices)
    requires Costs(t, ch).Ok?
    ensures var rows := Costs(t, ch).value;
      && |rows| == 3 && Distinct(rows)
      && rows[0].cost == LlmTerm(t, "input").value + LlmTerm(t, "output").value
      && rows[1].cost == SttCost(t, ch.stt).value
      && rows[2].cost == TtsCost(t, ch.tts).value
      && TotalCost(rows) == rows[0].cost + rows[1].cost + rows[2].cost
  {
    var rows := Costs(t, ch).value;
    assert CostValues(rows) == [rows[0].cost, rows[1].cost, rows[2].cost];
    Sum3(rows[0].cost, rows[1].cost, rows[2].cost);
    assert Label("LLM", ch.llm)[0] == 'L' && Label("STT", ch.stt)[0] == 'S' && Label("TTS", ch.tts)[0] == 'T';
  }

  /**
   * With the default providers the page charges what the shared formula
   * charges, provided the characters per minute it reads beside the TTS
   * records equal the ones the formula reads inside `11labs_scale`.
   */
  lemma TotalMatchesEngine(t: Tree, llm: string)
    requires CostEngine.ReadServiceCosts(t).Ok?
    requires ChargedChars(t) == Ok(Num(CostEngine.ReadServiceCosts(t).value.ttsCharsPerMinute))
    ensures var ch := Choices(llm, "deepgram", "elevenlabs");
      && Costs(t, ch).Ok? && CostsAsWritten(t, ch) == Costs(t, ch)
      && TotalCost(Costs(t, ch).value) == CostEngine.TotalCostPerMinute(CostEngine.ReadServiceCosts(t).value)
  {
    var c := CostEngine.ReadServiceCosts(t).value;
    var ch := Choices(llm, "deepgram", "elevenlabs");
    EngineLlmTerms(t, c.inputCostPer1k, c.inputTokensPerMinute, c.outputCostPer1k, c.outputTokensPerMinute);
    EngineAudioCosts(t, c.sttCostPerMinute, c.ttsCostPer1kChars, c.ttsCharsPerMinute);
    CostsShape(t, ch);
  }

  /** The page's two LLM terms are the token products of the rates stored at the engine's paths. */
  lemma EngineLlmTerms(t: Tree, inCost: real, inTokens: real, outCost: real, outTokens: real)
    requires GetPath(t, CostEngine.InputCostPath) == Ok(Num(inCost))
    requires GetPath(t, CostEngine.InputTokensPath) == Ok(Num(inTokens))
    requires GetPath(t, CostEngine.OutputCostPath) == Ok(Num(outCost))
    requires GetPath(t, CostEngine.OutputTokensPath) == Ok(Num(outTokens))
    ensures LlmTerm(t, "input") == Ok(PerThousand(inCost, inTokens))
    ensures LlmTerm(t, "output") == Ok(PerThousand(outCost, outTokens))
  {
    GetPathSnoc(t, ["service_costs", "text_generation", "input"], "tokens_per_minute");
    GetPathSnoc(t, ["service_costs", "text_generation", "output"], "tokens_per_minute");
    GetPathSnoc(t, ["service_costs", "text_generation", "input"], "cost_per_1k_tokens");
    GetPathSnoc(t, ["service_costs", "text_generation", "output"], "cost_per_1k_tokens");
  }

  /** Deepgram's and ElevenLabs' costs, read either way, are the rates stored at the engine's paths. */
  lemma EngineAudioCosts(t: Tree, stt: real, ttsCost: real, ttsChars: real)
    requires GetPath(t, CostEngine.SttCostPath) == Ok(Num(stt))
    requires GetPath(t, CostEngine.TtsCostPath) == Ok(Num(ttsCost))
    requires ChargedChars(t) == Ok(Num(ttsChars))
    ensures SttCost(t, "deepgram") == Ok(stt) && SttCostAsWritten(t, "deepgram") == Ok(stt)
    ensures TtsCost(t, "elevenlabs") == Ok(PerThousand(ttsCost, ttsChars))
    ensures TtsCostAsWritten(t, "elevenlabs") == TtsCost(t, "elevenlabs")
  {
  }

  /**
   * On the default configuration the comparison charges 0.00001 dollars a
   * minute for the LLM, 0.0036 for Deepgram and 0.027 for ElevenLabs, 0.03061
   * in all: what the shared formula charges.
   */
  lemma DefaultComparison(dates: seq<string>)
    ensures var d := Defaults.DefaultConfig(dates);
            var ch := Choices("gpt-4o", "deepgram", "elevenlabs");
      && Costs(d, ch).Ok?
      && TotalCost(Costs(d, ch).value) == 0.03061
      && CostsAsWritten(d, ch) == Costs(d, ch)
      && CostEngine.CalculateTotalCostPerMinute(d) == Ok(0.03061)
  {
    var d := Defaults.DefaultConfig(dates);
    CostEngine.ReadDefaultServiceCosts(dates);
    DefaultChargedChars(dates);
    TotalMatchesEngine(d, "gpt-4o");
    CostEngine.DefaultTotalCostPerMinute(dates);
  }

  /** The default configuration has no `chars_per_minute` beside the TTS records, so the page charges 150. */
  lemma DefaultChargedChars(dates: seq<string>)
    ensures ChargedChars(Defaults.DefaultConfig(dates)) == Ok(Num(150.0))
  {
    assert GetPath(Defaults.DefaultConfig(dates), ["service_costs", "audio_generation"]) == Ok(Defaults.AudioGenerationDefaults());
  }

  /**
   * As written, once a Whisper rate has been entered the comparison cannot be
   * built: the rate is stored as a bare number and then subscripted.
   */
  lemma WhisperCostAsWrittenFails(s: SessionState, input: Option<real>, ch: Choices)
    requires ch.stt == "whisper"
    requires Entered(s, SttField("whisper"), input).err.None?
    ensures CostsAsWritten(Entered(s, SttField("whisper"), input).state.config.value, ch).Err?
  {
    FieldPathsDotFree("", "whisper", "");
    EnteredStoresRate(s, SttField("whisper"), input);
    var t := Entered(s, SttField("whisper"), input).state.config.value;
    WhisperRateIsBare(t, GetPath(t, FieldPath(SttField("whisper"))).value.x);
  }

  /** Read where it is stored, the Whisper rate entered is the rate charged. */
  lemma WhisperCostReadBack(s: SessionState, input: Option<real>)
    requires Entered(s, SttField("whisper"), input).err.None?
    ensures var t := Entered(s, SttField("whisper"), input).state.config.value;
      SttCost(t, "whisper") == Ok(if input.Some? then input.value else Shown(s.config.value, SttField("whisper")).value)
  {
    FieldPathsDotFree("", "whisper", "");
    EnteredStoresRate(s, SttField("whisper"), input);
    assert FieldPath(SttField("whisper")) == ["service_costs", "audio_recognition", "whisper"];
  }

  /** As written, once a Deepgram TTS rate has been entered the comparison cannot be built either. */
  lemma DeepgramTtsCostAsWrittenFails(s: SessionState, input: Option<real>, ch: Choices)
    requires ch.tts == "deepgram_tts"
    requires Entered(s, TtsField("deepgram_tts"), input).err.None?
    ensures CostsAsWritten(Entered(s, TtsField("deepgram_tts"), input).state.config.value, ch).Err?
  {
    FieldPathsDotFree("", "", "deepgram_tts");
    EnteredStoresRate(s, TtsField("deepgram_tts"), input);
    var t := Entered(s, TtsField("deepgram_tts"), input).state.config.value;
    DeepgramTtsRateIsBare(t, GetPath(t, FieldPath(TtsField("deepgram_tts"))).value.x);
  }

  /** Read where it is stored, the Deepgram TTS rate entered is the rate charged per thousand characters. */
  lemma DeepgramTtsCostReadBack(s: SessionState, input: Option<real>)
    requires Entered(s, TtsField("deepgram_tts"), input).err.None?
    ensures var t := Entered(s, TtsField("deepgram_tts"), input).state.config.value;
            var rate := if input.Some? then input.value else Shown(s.config.value, TtsField("deepgram_tts")).value;
      && ChargedChars(t).Ok?
      && (ChargedChars(t).value.Num? ==> TtsCost(t, "deepgram_tts") == Ok(PerThousand(rate, ChargedChars(t).value.x)))
  {
    FieldPathsDotFree("", "", "deepgram_tts");
    EnteredStoresRate(s, TtsField("deepgram_tts"), input);
    assert FieldPath(TtsField("deepgram_tts")) == ["service_costs", "audio_generation", "deepgram_tts"];
    var t := Entered(s, TtsField("deepgram_tts"), input).state.config.value;
    GetPathSnoc(t, ["service_costs", "audio_generation"], "deepgram_tts");
  }

  // ---------------------------------------------------------------------------
  // Savings.

  /** `costs[name]`: the cost under that label, or nothing when no entry has it. */
  function CostOf(rows: seq<CostRow>, name: string): (r: Option<real>)
    ensures r.None? <==> forall i :: 0 <= i < |rows| ==> rows[i].service != name
    ensures r.Some? ==> exists i :: 0 <= i < |rows| && rows[i] == CostRow(name, r.value)
  {
    if rows == [] then None
    else if rows[0].service == name then Some(rows[0].cost)
    else
      var r := CostOf(rows[1..], name);
      assert forall i :: 0 < i < |rows| ==> rows[i] == rows[1..][i - 1];
      r
  }

  /** The savings entries, in the order of `costs`, of every service but the baseline. */
  function SavingsFrom(rows: seq<CostRow>, baseline: string, b: real): (r: seq<CostRow>)
    ensures |r| <= |rows|
    ensures forall i :: 0 <= i < |r| ==> r[i].service != baseline
  {
    if rows == [] then []
    else
      var n := |rows| - 1;
      SavingsFrom(rows[..n], baseline, b) + (if rows[n].service != baseline then [CostRow(rows[n].service, b - rows[n].cost)] else [])
  }

  /** The savings table for the selected baseline; a label that is not in `costs` raises KeyError. */
  function Savings(rows: seq<CostRow>, baseline: string): (r: Result<seq<CostRow>>)
    ensures r.Err? <==> forall i :: 0 <= i < |rows| ==> rows[i].service != baseline
    ensures r.Err? ==> r.error == KeyError(baseline)
  {
    match CostOf(rows, baseline)
    case None => Err(KeyError(baseline))
    case Some(b) => Ok(SavingsFrom(rows, baseline, b))
  }

  /** The loop filling the `savings` dict. */
  method ComputeSavings(rows: seq<CostRow>, baseline: string) returns (r: Result<seq<CostRow>>)
    ensures r == Savings(rows, baseline)
  {
    var b := CostOf(rows, baseline);
    if b.None? {
      return Err(KeyError(baseline));
    }
    var savings: seq<CostRow> := [];
    var i := 0;
    while i < |rows|
      invariant 0 <= i <= |rows|
      invariant savings == SavingsFrom(rows[..i], baseline, b.value)
    {
      assert rows[..i + 1][..i] == rows[..i];
      if rows[i].service != baseline {
        savings := savings + [CostRow(rows[i].service, b.value - rows[i].cost)];
      }
      i := i + 1;
    }
    assert rows[..|rows|] == rows;
    return Ok(savings);
  }

  /**
   * Each entry kept, with the baseline's cost minus its own: positive exactly
   * when that service is cheaper than the baseline, negative exactly when it
   * is dearer.
   */
  function Against(rows: seq<CostRow>, b: real): (r: seq<CostRow>)
    ensures |r| == |rows|
    ensures forall i :: 0 <= i < |rows| ==>
      && r[i].service == rows[i].service
      && (r[i].cost > 0.0 <==> rows[i].cost < b)
      && (r[i].cost < 0.0 <==> rows[i].cost > b)
  {
    seq(|rows|, i requires 0 <= i < |rows| => CostRow(rows[i].service, b - rows[i].cost))
  }

  lemma {:induction false} SavingsWithoutBaseline(rows: seq<CostRow>, baseline: string, b: real)
    requires forall i :: 0 <= i < |rows| ==> rows[i].service != baseline
    ensures SavingsFrom(rows, baseline, b) == Against(rows, b)
  {
    if rows != [] {
      var n := |rows| - 1;
      SavingsWithoutBaseline(rows[..n], baseline, b);
      assert Against(rows, b) == Against(rows[..n], b) + [CostRow(rows[n].service, b - rows[n].cost)];
    }
  }

  /**
   * With distinct labels and the baseline at position `k`, the savings are
   * every other entry, in order, against the baseline's cost: one fewer
   * entry than `costs`.
   */
  lemma {:induction false} SavingsAgainstBaseline(rows: seq<CostRow>, k: nat)
    requires Distinct(rows) && k < |rows|
    ensures Savings(rows, rows[k].service) == Ok(Against(rows[..k] + rows[k + 1..], rows[k].cost))
    ensures |Savings(rows, rows[k].service).value| == |rows| - 1
  {
    var baseline := rows[k].service;
    assert CostOf(rows, baseline) == Some(rows[k].cost) by {
      CostOfDistinct(rows, k);
    }
    SavingsFromSplit(rows, k);
  }

  lemma {:induction false} CostOfDistinct(rows: seq<CostRow>, k: nat)
    requires Distinct(rows) && k < |rows|
    ensures CostOf(rows, rows[k].service) == Some(rows[k].cost)
  {
    if k > 0 {
      assert rows[0].service != rows[k].service;
      assert Distinct(rows[1..]) by {
        forall i, j | 0 <= i < j < |rows[1..]| ensures rows[1..][i].service != rows[1..][j].service {
          assert rows[1..][i] == rows[i + 1] && rows[1..][j] == rows[j + 1];
        }
      }
      assert rows[1..][k - 1] == rows[k];
      CostOfDistinct(rows[1..], k - 1);
    }
  }

  lemma {:induction false} SavingsFromSplit(rows: seq<CostRow>, k: nat)
    requires Distinct(rows) && k < |rows|
    ensures SavingsFrom(rows, rows[k].service, rows[k].cost) == Against(rows[..k] + rows[k + 1..], rows[k].cost)
    decreases |rows|
  {
    var baseline := rows[k].service;
    var b := rows[k].cost;
    var n := |rows| - 1;
    if k == n {
      SavingsWithoutBaseline(rows[..n], baseline, b);
      assert rows[k + 1..] == [];
      assert rows[..k] + rows[k + 1..] == rows[..n];
    } else {
      assert Distinct(rows[..n]);
      assert rows[..n][k] == rows[k];
      SavingsFromSplit(rows[..n], k);
      assert rows[n].service != baseline;
      var left := rows[..n][..k] + rows[..n][k + 1..];
      assert rows[..k] + rows[k + 1..] == left + [rows[n]] by {
        assert rows[..n][..k] == rows[..k];
        assert rows[k + 1..] == rows[..n][k + 1..] + [rows[n]];
      }
      assert Against(left + [rows[n]], b) == Against(left, b) + [CostRow(rows[n].service, b - rows[n].cost)];
    }
  }

  // ---------------------------------------------------------------------------
  // One run of the page.

  /** What the page does after initialising: a radio selection, or a number input and its write. */
  datatype Step = Choose(service: Service, choice: string) | Enter(field: RateField, input: Option<real>)

  function Apply(s: SessionState, step: Step): (r: Outcome)
    ensures s.config.Some? ==> r.state.config.Some?
  {
    match step
    case Choose(svc, choice) => Selected(s, svc, choice)
    case Enter(f, input) => Entered(s, f, input)
  }

  /** The next step, unless an exception has already stopped the run. */
  function AndThen(o: Outcome, step: Step): (r: Outcome)
    ensures o.state.config.Some? ==> r.state.config.Some?
  {
    if o.err.Some? then o else Apply(o.state, step)
  }

  /** The four number inputs of a run; None where the widget is left at the value it shows. */
  datatype Inputs = Inputs(input: Option<real>, output: Option<real>, stt: Option<real>, tts: Option<real>)

  /** The text-generation section: the model selection and its two token rates. */
  function LlmSection(o: Outcome, ch: Choices, inputs: Inputs): (r: Outcome)
    ensures o.state.config.Some? ==> r.state.config.Some?
  {
    var o1 := AndThen(o, Choose(Llm, ch.llm));
    var o2 := AndThen(o1, Enter(InputField(ch.llm), inputs.input));
    AndThen(o2, Enter(OutputField(ch.llm), inputs.output))
  }

  /** The speech-to-text section: the provider selection and its rate. */
  function SttSection(o: Outcome, ch: Choices, inputs: Inputs): (r: Outcome)
    ensures o.state.config.Some? ==> r.state.config.Some?
  {
    AndThen(AndThen(o, Choose(Stt, ch.stt)), Enter(SttField(ch.stt), inputs.stt))
  }

  /** The text-to-speech section: the provider selection and its rate. */
  function TtsSection(o: Outcome, ch: Choices, inputs: Inputs): (r: Outcome)
    ensures o.state.config.Some? ==> r.state.config.Some?
  {
    AndThen(AndThen(o, Choose(Tts, ch.tts)), Enter(TtsField(ch.tts), inputs.tts))
  }

  /**
   * `render_service_configuration` up to the cost comparison: initialise,
   * then the three sections in page order.
   */
  function RenderOutcome(s: SessionState, initial: Tree, ch: Choices, inputs: Inputs): (r: Outcome)
    ensures r.state.config.Some?
  {
    TtsSection(SttSection(LlmSection(Initialized(s, initial), ch, inputs), ch, inputs), ch, inputs)
  }

  /** The cost table, its total and the savings against the selected baseline. */
  datatype Comparison = Comparison(costs: seq<CostRow>, total: real, savings: seq<CostRow>)

  /**
   * What the run shows: the exception that stopped it, or the comparison the
   * page builds on the final configuration, with its costs read as written.
   */
  function Report(o: Outcome, ch: Choices, baseline: string): (r: Result<Comparison>)
    requires o.state.config.Some?
    ensures o.err.Some? ==> r == Err(o.err.value)
    ensures o.err.None? ==> (r.Ok? <==> CostsAsWritten(o.state.config.value, ch).Ok?
                                        && Savings(CostsAsWritten(o.state.config.value, ch).value, baseline).Ok?)
    ensures r.Ok? ==> CostsAsWritten(o.state.config.value, ch) == Ok(r.value.costs)
                      && r.value.total == TotalCost(r.value.costs)
                      && Savings(r.value.costs, baseline) == Ok(r.value.savings)
  {
    if o.err.Some? then Err(o.err.value)
    else
      var costs :- CostsAsWritten(o.state.config.value, ch);
      var savings :- Savings(costs, baseline);
      Ok(Comparison(costs, TotalCost(costs), savings))
  }

  /** The same comparison with each rate read where the page stores it. */
  function ReportCorrected(o: Outcome, ch: Choices, baseline: string): (r: Result<Comparison>)
    requires o.state.config.Some?
    ensures o.err.Some? ==> r == Err(o.err.value)
    ensures o.err.None? ==> (r.Ok? <==> Costs(o.state.config.value, ch).Ok?
                                        && Savings(Costs(o.state.config.value, ch).value, baseline).Ok?)
    ensures r.Ok? ==> Costs(o.state.config.value, ch) == Ok(r.value.costs)
                      && r.value.total == TotalCost(r.value.costs)
                      && Savings(r.value.costs, baseline) == Ok(r.value.savings)
  {
    if o.err.Some? then Err(o.err.value)
    else
      var costs :- Costs(o.state.config.value, ch);
      var savings :- Savings(costs, baseline);
      Ok(Comparison(costs, TotalCost(costs), savings))
  }

  /** With Deepgram and ElevenLabs, whose rates live in records, the page as written and the corrected read agree. */
  lemma ReportsAgreeForRecordProviders(o: Outcome, ch: Choices, baseline: string)
    requires o.state.config.Some?
    requires ch.stt == "deepgram" && ch.tts == "elevenlabs"
    ensures Report(o, ch, baseline) == ReportCorrected(o, ch, baseline)
  {
    var t := o.state.config.value;
    assert SttCostAsWritten(t, ch.stt) == SttCost(t, ch.stt);
    assert TtsCostAsWritten(t, ch.tts) == TtsCost(t, ch.tts);
  }

  /** A number input touches the configuration only. */
  lemma EnteredKeepsOptions(s: SessionState, f: RateField, input: Option<real>)
    ensures Entered(s, f, input).state.(config := s.config) == s
  {
  }

  lemma LlmSectionRecords(o: Outcome, ch: Choices, inputs: Inputs)
    requires LlmSection(o, ch, inputs).err.None?
    ensures var r := LlmSection(o, ch, inputs).state;
      r.llm == Some(Text(ch.llm)) && r.stt == o.state.stt && r.tts == o.state.tts
  {
    var o1 := AndThen(o, Choose(Llm, ch.llm));
    var o2 := AndThen(o1, Enter(InputField(ch.llm), inputs.input));
    SelectRecordsChoice(o.state, Llm, ch.llm);
    EnteredKeepsOptions(o1.state, InputField(ch.llm), inputs.input);
    EnteredKeepsOptions(o2.state, OutputField(ch.llm), inputs.output);
  }

  lemma SttSectionRecords(o: Outcome, ch: Choices, inputs: Inputs)
    requires SttSection(o, ch, inputs).err.None?
    ensures var r := SttSection(o, ch, inputs).state;
      r.stt == Some(Text(ch.stt)) && r.llm == o.state.llm && r.tts == o.state.tts
  {
    SelectRecordsChoice(o.state, Stt, ch.stt);
    EnteredKeepsOptions(AndThen(o, Choose(Stt, ch.stt)).state, SttField(ch.stt), inputs.stt);
  }

  lemma TtsSectionRecords(o: Outcome, ch: Choices, inputs: Inputs)
    requires TtsSection(o, ch, inputs).err.None?
    ensures var r := TtsSection(o, ch, inputs).state;
      r.tts == Some(Text(ch.tts)) && r.llm == o.state.llm && r.stt == o.state.stt
  {
    SelectRecordsChoice(o.state, Tts, ch.tts);
    EnteredKeepsOptions(AndThen(o, Choose(Tts, ch.tts)).state, TtsField(ch.tts), inputs.tts);
  }

  /** After a run that goes through, the session's three options are the three choices. */
  lemma RenderRecordsChoices(s: SessionState, initial: Tree, ch: Choices, inputs: Inputs)
    requires RenderOutcome(s, initial, ch, inputs).err.None?
    ensures var r := RenderOutcome(s, initial, ch, inputs).state;
      r.llm == Some(Text(ch.llm)) && r.stt == Some(Text(ch.stt)) && r.tts == Some(Text(ch.tts))
  {
    var o3 := LlmSection(Initialized(s, initial), ch, inputs);
    var o5 := SttSection(o3, ch, inputs);
    LlmSectionRecords(Initialized(s, initial), ch, inputs);
    SttSectionRecords(o3, ch, inputs);
    TtsSectionRecords(o5, ch, inputs);
  }

  /** The configuration path a step writes, when it writes. */
  function StepPath(step: Step): seq<string>
  {
    match step
    case Choose(svc, _) => OptionPath(svc)
    case Enter(f, _) => FieldPath(f)
  }

  /** A step that writes elsewhere than `p` leaves what `p` finds as it was. */
  lemma StepKeepsLookup(s: SessionState, step: Step, p: seq<string>, j: nat)
    requires s.config.Some? && Apply(s, step).err.None?
    requires DotFree(StepPath(step))
    requires j < |p| && j < |StepPath(step)| && p[..j] == StepPath(step)[..j] && p[j] != StepPath(step)[j]
    ensures Lookup(Apply(s, step).state.config.value, p) == Lookup(s.config.value, p)
  {
    SplitJoin(StepPath(step), '.');
    match step
    case Choose(svc, choice) =>
      if OptionOf(s, svc) != Some(Text(choice)) {
        UpdateConfigOffPath(s.config.value, Join(OptionPath(svc), '.'), Text(choice), p, j);
      }
    case Enter(f, input) =>
      var v := Num(if input.Some? then input.value else Shown(s.config.value, f).value);
      UpdateConfigOffPath(s.config.value, Join(FieldPath(f), '.'), v, p, j);
  }

  /** The speech-to-text section stores its rate under the path of its field. */
  lemma SttSectionStoresRate(o: Outcome, ch: Choices, inputs: Inputs)
    requires o.state.config.Some? && SttSection(o, ch, inputs).err.None?
    ensures var t := SttSection(o, ch, inputs).state.config.value;
            var stored := GetPath(t, FieldPath(SttField(ch.stt)));
      && stored.Ok? && stored.value.Num?
      && (inputs.stt.Some? ==> stored == Ok(Num(inputs.stt.value)))
  {
    var o4 := AndThen(o, Choose(Stt, ch.stt));
    FieldPathsDotFree(ch.llm, ch.stt, ch.tts);
    EnteredStoresRate(o4.state, SttField(ch.stt), inputs.stt);
  }

  /** The text-to-speech section stores its rate under the path of its field. */
  lemma TtsSectionStoresRate(o: Outcome, ch: Choices, inputs: Inputs)
    requires o.state.config.Some? && TtsSection(o, ch, inputs).err.None?
    ensures var t := TtsSection(o, ch, inputs).state.config.value;
            var stored := GetPath(t, FieldPath(TtsField(ch.tts)));
      && stored.Ok? && stored.value.Num?
      && (inputs.tts.Some? ==> stored == Ok(Num(inputs.tts.value)))
  {
    var o6 := AndThen(o, Choose(Tts, ch.tts));
    FieldPathsDotFree(ch.llm, ch.stt, ch.tts);
    EnteredStoresRate(o6.state, TtsField(ch.tts), inputs.tts);
  }

  /** The text-to-speech section writes under `audio_generation` only: nothing under `audio_recognition` changes. */
  lemma TtsSectionKeepsRecognition(o: Outcome, ch: Choices, inputs: Inputs, p: seq<string>)
    requires o.state.config.Some? && TtsSection(o, ch, inputs).err.None?
    requires |p| >= 2 && p[0] == "service_costs" && p[1] == "audio_recognition"
    ensures Lookup(TtsSection(o, ch, inputs).state.config.value, p) == Lookup(o.state.config.value, p)
  {
    var o6 := AndThen(o, Choose(Tts, ch.tts));
    FieldPathsDotFree(ch.llm, ch.stt, ch.tts);
    assert p[..1] == ["service_costs"] == OptionPath(Tts)[..1] == FieldPath(TtsField(ch.tts))[..1];
    StepKeepsLookup(o.state, Choose(Tts, ch.tts), p, 1);
    StepKeepsLookup(o6.state, Enter(TtsField(ch.tts), inputs.tts), p, 1);
  }

  /**
   * After a run that goes through with Deepgram or Whisper, the corrected
   * comparison charges the STT rate the run stored (the number entered, when
   * one was), while the comparison as written fails for Whisper.
   */
  lemma RenderChargesSttRate(s: SessionState, initial: Tree, ch: Choices, inputs: Inputs)
    requires ch.stt == "deepgram" || ch.stt == "whisper"
    requires RenderOutcome(s, initial, ch, inputs).err.None?
    ensures var t := RenderOutcome(s, initial, ch, inputs).state.config.value;
      && SttCost(t, ch.stt).Ok?
      && (inputs.stt.Some? ==> SttCost(t, ch.stt) == Ok(inputs.stt.value))
      && (ch.stt == "whisper" ==> CostsAsWritten(t, ch).Err?)
  {
    var o3 := LlmSection(Initialized(s, initial), ch, inputs);
    var o5 := SttSection(o3, ch, inputs);
    TtsSectionNeedsRun(o5, ch, inputs);
    SttSectionStoresRate(o3, ch, inputs);
    SttRateSurvivesTts(o5, ch, inputs);
    var t := TtsSection(o5, ch, inputs).state.config.value;
    var x := GetPath(t, FieldPath(SttField(ch.stt))).value.x;
    SttCostOfStored(t, ch.stt, x);
    if ch.stt == "whisper" {
      WhisperRateIsBare(t, x);
    }
  }

  /** A run that an earlier step stopped stays stopped through the TTS section. */
  lemma TtsSectionNeedsRun(o: Outcome, ch: Choices, inputs: Inputs)
    ensures TtsSection(o, ch, inputs).err.None? ==> o.err.None?
  {
  }

  /** The TTS section leaves a stored STT rate as it was. */
  lemma SttRateSurvivesTts(o: Outcome, ch: Choices, inputs: Inputs)
    requires o.state.config.Some? && TtsSection(o, ch, inputs).err.None?
    requires GetPath(o.state.config.value, FieldPath(SttField(ch.stt))).Ok?
    ensures GetPath(TtsSection(o, ch, inputs).state.config.value, FieldPath(SttField(ch.stt))) ==
            GetPath(o.state.config.value, FieldPath(SttField(ch.stt)))
  {
    TtsSectionKeepsRecognition(o, ch, inputs, FieldPath(SttField(ch.stt)));
  }

  /** The corrected STT cost of Deepgram or Whisper is the number stored in that provider's field. */
  lemma SttCostOfStored(t: Tree, stt: string, x: real)
    requires stt == "deepgram" || stt == "whisper"
    requires GetPath(t, FieldPath(SttField(stt))) == Ok(Num(x))
    ensures SttCost(t, stt) == Ok(x)
  {
    if stt == "deepgram" {
      assert FieldPath(SttField(stt)) == ["service_costs", "audio_recognition", SttKey(stt), "cost_per_minute"];
    } else {
      assert FieldPath(SttField(stt)) == ["service_costs", "audio_recognition", stt];
    }
  }

  /**
   * With Whisper or Deepgram TTS selected the page never shows a comparison:
   * either a step stops the run, or the rate it stored as a bare number is
   * subscripted by the cost table.
   */
  lemma RenderWithBareRateFails(s: SessionState, initial: Tree, ch: Choices, inputs: Inputs, baseline: string)
    requires ch.stt == "whisper" || ch.tts == "deepgram_tts"
    ensures Report(RenderOutcome(s, initial, ch, inputs), ch, baseline).Err?
  {
    var o := RenderOutcome(s, initial, ch, inputs);
    if o.err.None? {
      var t := o.state.config.value;
      if ch.stt == "whisper" {
        RenderChargesSttRate(s, initial, ch, inputs);
      } else {
        var o5 := SttSection(LlmSection(Initialized(s, initial), ch, inputs), ch, inputs);
        TtsSectionStoresRate(o5, ch, inputs);
        DeepgramTtsRateIsBare(t, GetPath(t, FieldPath(TtsField("deepgram_tts"))).value.x);
      }
    }
  }

  /** Whisper's rate is stored as a bare number, so the table's `["cost_per_minute"]` subscript raises TypeError. */
  lemma WhisperRateIsBare(t: Tree, x: real)
    requires GetPath(t, FieldPath(SttField("whisper"))) == Ok(Num(x))
    ensures SttCostAsWritten(t, "whisper") == Err(TypeError)
  {
    var p := FieldPath(SttField("whisper"));
    assert p == ["service_costs", "audio_recognition", "whisper"];
    GetPathSnoc(t, p, "cost_per_minute");
    assert SttKey("whisper") == "whisper";
    assert p + ["cost_per_minute"] == ["service_costs", "audio_recognition", SttKey("whisper"), "cost_per_minute"];
  }

  /** Deepgram TTS's rate is stored as a bare number, so the table's `["cost_per_1k_chars"]` subscript raises TypeError. */
  lemma DeepgramTtsRateIsBare(t: Tree, x: real)
    requires GetPath(t, FieldPath(TtsField("deepgram_tts"))) == Ok(Num(x))
    ensures TtsCostAsWritten(t, "deepgram_tts") == Err(TypeError)
  {
    var p := FieldPath(TtsField("deepgram_tts"));
    assert p == ["service_costs", "audio_generation", "deepgram_tts"];
    GetPathSnoc(t, p, "cost_per_1k_chars");
    assert TtsKey("deepgram_tts") == "deepgram_tts";
    assert p + ["cost_per_1k_chars"] == ["service_costs", "audio_generation", TtsKey("deepgram_tts"), "cost_per_1k_chars"];
  }

  /**
   * A section whose provider is already selected and whose rates are already
   * stored, with every widget left as it is, writes nothing new.
   */
  lemma LlmSectionUntouched(s0: SessionState, ch: Choices, inputs: Inputs, x: real, y: real)
    requires s0.config.Some? && s0.config.value.Node? && s0.llm == Some(Text(ch.llm))
    requires inputs.input.None? && inputs.output.None?
    requires GetPath(s0.config.value, FieldPath(InputField(ch.llm))) == Ok(Num(x))
    requires GetPath(s0.config.value, FieldPath(OutputField(ch.llm))) == Ok(Num(y))
    ensures LlmSection(Outcome(s0, None), ch, inputs) == Outcome(s0, None)
  {
    FieldPathsDotFree(ch.llm, ch.stt, ch.tts);
    UntouchedRateKeepsConfig(s0, InputField(ch.llm), x);
    UntouchedRateKeepsConfig(s0, OutputField(ch.llm), y);
  }

  lemma SttSectionUntouched(s0: SessionState, ch: Choices, inputs: Inputs, x: real)
    requires s0.config.Some? && s0.config.value.Node? && s0.stt == Some(Text(ch.stt)) && inputs.stt.None?
    requires GetPath(s0.config.value, FieldPath(SttField(ch.stt))) == Ok(Num(x))
    ensures SttSection(Outcome(s0, None), ch, inputs) == Outcome(s0, None)
  {
    FieldPathsDotFree(ch.llm, ch.stt, ch.tts);
    UntouchedRateKeepsConfig(s0, SttField(ch.stt), x);
  }

  lemma TtsSectionUntouched(s0: SessionState, ch: Choices, inputs: Inputs, x: real)
    requires s0.config.Some? && s0.config.value.Node? && s0.tts == Some(Text(ch.tts)) && inputs.tts.None?
    requires GetPath(s0.config.value, FieldPath(TtsField(ch.tts))) == Ok(Num(x))
    ensures TtsSection(Outcome(s0, None), ch, inputs) == Outcome(s0, None)
  {
    FieldPathsDotFree(ch.llm, ch.stt, ch.tts);
    UntouchedRateKeepsConfig(s0, TtsField(ch.tts), x);
  }

  /**
   * A run on a session whose options are already the choices and whose rates
   * are already stored, with every widget left as it is, writes nothing new.
   */
  lemma RenderUntouched(s: SessionState, initial: Tree, ch: Choices, x: seq<real>)
    requires |x| == 4
    requires var s0 := Initialized(s, initial);
      && s0.err.None? && s0.state.config.value.Node?
      && s0.state.llm == Some(Text(ch.llm)) && s0.state.stt == Some(Text(ch.stt)) && s0.state.tts == Some(Text(ch.tts))
      && GetPath(s0.state.config.value, FieldPath(InputField(ch.llm))) == Ok(Num(x[0]))
      && GetPath(s0.state.config.value, FieldPath(OutputField(ch.llm))) == Ok(Num(x[1]))
      && GetPath(s0.state.config.value, FieldPath(SttField(ch.stt))) == Ok(Num(x[2]))
      && GetPath(s0.state.config.value, FieldPath(TtsField(ch.tts))) == Ok(Num(x[3]))
    ensures RenderOutcome(s, initial, ch, Inputs(None, None, None, None)) == Initialized(s, initial)
  {
    var s0 := Initialized(s, initial).state;
    var untouched := Inputs(None, None, None, None);
    LlmSectionUntouched(s0, ch, untouched, x[0], x[1]);
    SttSectionUntouched(s0, ch, untouched, x[2]);
    TtsSectionUntouched(s0, ch, untouched, x[3]);
  }

  /**
   * A run on a fresh session with the default configuration, the default
   * selections and every widget left as it is writes nothing new.
   */
  lemma RenderDefaults(dates: seq<string>)
    ensures var d := Defaults.DefaultConfig(dates);
      RenderOutcome(EmptySession, d, Choices("gpt-4o", "deepgram", "elevenlabs"), Inputs(None, None, None, None)) ==
        Outcome(SessionState(Some(d), Some(Text("gpt-4o")), Some(Text("deepgram")), Some(Text("elevenlabs"))), None)
  {
    InitializeDefaults(dates);
    DefaultLlmRatesStored(dates);
    DefaultAudioRatesStored(dates);
    RenderUntouched(EmptySession, Defaults.DefaultConfig(dates), Choices("gpt-4o", "deepgram", "elevenlabs"),
                    [0.005, 0.015, 0.0036, 0.18]);
  }

  /** The default configuration stores the default LLM rates where the page's widgets write them. */
  lemma DefaultLlmRatesStored(dates: seq<string>)
    ensures var d := Defaults.DefaultConfig(dates);
      && GetPath(d, FieldPath(InputField("gpt-4o"))) == Ok(Num(0.005))
      && GetPath(d, FieldPath(OutputField("gpt-4o"))) == Ok(Num(0.015))
  {
    CostEngine.DefaultTextRates(dates);
    assert FieldPath(InputField("gpt-4o")) == CostEngine.InputCostPath;
    assert FieldPath(OutputField("gpt-4o")) == CostEngine.OutputCostPath;
  }

  /** The same for the default STT and TTS rates. */
  lemma DefaultAudioRatesStored(dates: seq<string>)
    ensures var d := Defaults.DefaultConfig(dates);
      && GetPath(d, FieldPath(SttField("deepgram"))) == Ok(Num(0.0036))
      && GetPath(d, FieldPath(TtsField("elevenlabs"))) == Ok(Num(0.18))
  {
    CostEngine.DefaultAudioRates(dates);
    assert FieldPath(SttField("deepgram")) == CostEngine.SttCostPath;
    assert FieldPath(TtsField("elevenlabs")) == CostEngine.TtsCostPath;
  }

  /**
   * That run shows the default comparison: 0.03061 dollars a minute in all,
   * and two savings entries against the LLM baseline.
   */
  lemma DefaultReport(dates: seq<string>)
    ensures var d := Defaults.DefaultConfig(dates);
            var ch := Choices("gpt-4o", "deepgram", "elevenlabs");
            var o := RenderOutcome(EmptySession, d, ch, Inputs(None, None, None, None));
            var r := Report(o, ch, Label("LLM", "gpt-4o"));
      && r.Ok? && r.value.total == 0.03061 && |r.value.savings| == 2
      && ReportCorrected(o, ch, Label("LLM", "gpt-4o")) == r
  {
    var d := Defaults.DefaultConfig(dates);
    var ch := Choices("gpt-4o", "deepgram", "elevenlabs");
    RenderDefaults(dates);
    DefaultComparison(dates);
    var rows := Costs(d, ch).value;
    CostsShape(d, ch);
    SavingsAgainstBaseline(rows, 0);
    var o := Outcome(SessionState(Some(d), Some(Text("gpt-4o")), Some(Text("deepgram")), Some(Text("elevenlabs"))), None);
    assert ReportCorrected(o, ch, Label("LLM", "gpt-4o")) == Ok(Comparison(rows, TotalCost(rows), Savings(rows, rows[0].service).value));
    assert Report(o, ch, Label("LLM", "gpt-4o")) == ReportCorrected(o, ch, Label("LLM", "gpt-4o"));
  }

  /** `st.session_state` as far as the page uses it. */
  class Session {
    var config: Option<Tree>
    var llmOption: Option<Tree>
    var sttOption: Option<Tree>
    var ttsOption: Option<Tree>

    constructor ()
      ensures State() == EmptySession
    {
      config := None;
      llmOption := None;
      sttOption := None;
      ttsOption := None;
    }

    function State(): SessionState
      reads this
    {
      SessionState(config, llmOption, sttOption, ttsOption)
    }

    /** `initialize_config_state(config)`. */
    method InitializeConfigState(initial: Tree) returns (err: Option<Error>)
      modifies this
      ensures Outcome(State(), err) == Initialized(old(State()), initial)
    {
      if config.None? {
        config := Some(initial);
      }
      var cfg := config.value;
      if llmOption.None? {
        var v := OptionDefault(cfg, "text_generation", "model", "gpt-4o");
        if v.Err? {
          return Some(v.error);
        }
        llmOption := Some(v.value);
      }
      if sttOption.None? {
        var v := OptionDefault(cfg, "audio_recognition", "provider", "deepgram");
        if v.Err? {
          return Some(v.error);
        }
        sttOption := Some(v.value);
      }
      if ttsOption.None? {
        var v := OptionDefault(cfg, "audio_generation", "provider", "elevenlabs");
        if v.Err? {
          return Some(v.error);
        }
        ttsOption := Some(v.value);
      }
      return None;
    }

    /**
     * `update_config(key, value)`: a fresh top-level copy of the configuration
     * is walked along the split key and becomes the session's configuration.
     */
    method UpdateConfig(key: string, value: Tree) returns (err: Option<Error>)
      modifies this
      ensures Outcome(State(), err) == ConfigUpdated(old(State()), key, value)
    {
      if config.None? {
        return Some(AttributeError);
      }
      var t := config.value;
      if t.Num? || t.Text? {
        return Some(AttributeError);
      }
      var copy := new ConfigDict(t);
      err := copy.UpdateNestedDict(Split(key, '.'), value);
      config := Some(copy.root);
    }

    /** A radio selection: a changed choice is stored in the session and written to the configuration. */
    method Select(svc: Service, choice: string) returns (err: Option<Error>)
      modifies this
      ensures Outcome(State(), err) == Selected(old(State()), svc, choice)
    {
      var current := match svc case Llm => llmOption case Stt => sttOption case Tts => ttsOption;
      if current == Some(Text(choice)) {
        return None;
      }
      match svc {
        case Llm => llmOption := Some(Text(choice));
        case Stt => sttOption := Some(Text(choice));
        case Tts => ttsOption := Some(Text(choice));
      }
      err := UpdateConfig(Join(OptionPath(svc), '.'), Text(choice));
    }

    /** A number input and the `update_config` of its key. */
    method EnterRate(f: RateField, input: Option<real>) returns (err: Option<Error>)
      modifies this
      ensures Outcome(State(), err) == Entered(old(State()), f, input)
    {
      if config.None? {
        return Some(AttributeError);
      }
      var shown := Shown(config.value, f);
      if shown.Err? {
        return Some(shown.error);
      }
      var v := if input.Some? then input.value else shown.value;
      err := UpdateConfig(Join(FieldPath(f), '.'), Num(v));
    }

    /** `render_service_configuration(config)` with the widgets' values passed in. */
    method Render(initial: Tree, ch: Choices, inputs: Inputs, baseline: string) returns (r: Result<Comparison>)
      modifies this
      ensures State() == RenderOutcome(old(State()), initial, ch, inputs).state
      ensures r == Report(RenderOutcome(old(State()), initial, ch, inputs), ch, baseline)
    {
      ghost var s := State();
      ghost var o0 := Initialized(s, initial);
      ghost var o1 := AndThen(o0, Choose(Llm, ch.llm));
      ghost var o2 := AndThen(o1, Enter(InputField(ch.llm), inputs.input));
      ghost var o3 := AndThen(o2, Enter(OutputField(ch.llm), inputs.output));
      ghost var o4 := AndThen(o3, Choose(Stt, ch.stt));
      ghost var o5 := AndThen(o4, Enter(SttField(ch.stt), inputs.stt));
      ghost var o6 := AndThen(o5, Choose(Tts, ch.tts));
      ghost var o7 := AndThen(o6, Enter(TtsField(ch.tts), inputs.tts));
      assert LlmSection(o0, ch, inputs) == o3;
      assert SttSection(o3, ch, inputs) == o5;
      assert RenderOutcome(s, initial, ch, inputs) == o7;
      var err := InitializeConfigState(initial);
      if err.Some? {
        assert o7 == o0;
        return Err(err.value);
      }
      err := Select(Llm, ch.llm);
      assert Outcome(State(), err) == o1;
      if err.Some? {
        assert o7 == o1;
        return Err(err.value);
      }
      err := EnterRate(InputField(ch.llm), inputs.input);
      assert Outcome(State(), err) == o2;
      if err.Some? {
        assert o7 == o2;
        return Err(err.value);
      }
      err := EnterRate(OutputField(ch.llm), inputs.output);
      assert Outcome(State(), err) == o3;
      if err.Some? {
        assert o7 == o3;
        return Err(err.value);
      }
      err := Select(Stt, ch.stt);
      assert Outcome(State(), err) == o4;
      if err.Some? {
        assert o7 == o4;
        return Err(err.value);
      }
      err := EnterRate(SttField(ch.stt), inputs.stt);
      assert Outcome(State(), err) == o5;
      if err.Some? {
        assert o7 == o5;
        return Err(err.value);
      }
      err := Select(Tts, ch.tts);
      assert Outcome(State(), err) == o6;
      if err.Some? {
        assert o7 == o6;
        return Err(err.value);
      }
      err := EnterRate(TtsField(ch.tts), inputs.tts);
      assert Outcome(State(), err) == o7;
      if err.Some? {
        return Err(err.value);
      }
      var costs := CostsAsWritten(config.value, ch);
      if costs.Err? {
        return Err(costs.error);
      }
      var total := TotalCost(costs.value);
      var savings := ComputeSavings(costs.value, baseline);
      if savings.Err? {
        return Err(savings.error);
      }
      return Ok(Comparison(costs.value, total, savings.value));
    }
  }
}
