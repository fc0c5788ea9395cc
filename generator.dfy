/** The `generate` node (core/graph/nodes/generator.py). */
module Generator {
  import opened Wrappers
  import opened GraphUtils

  /** `enable_retry_variation` and `retry_temperature_increment`. */
  datatype RetryVariation = RetryVariation(enabled: bool, increment: real)

  /** What the answer chain is invoked with: the context, the question, and the model configuration. */
  datatype GenerationCall = GenerationCall(context: string, question: string, config: map<string, Value>)

  predicate IsNumber(v: Value)
  {
    v.Int? || v.Num? || v.Bool?
  }

  function AsReal(v: Value): real
    requires IsNumber(v)
  {
    match v
    case Int(i) => i as real
    case Num(r) => r
    case Bool(b) => if b then 1.0 else 0.0
  }

  /** The stored temperature, if any, is a number: `int`, `float` or `bool`, which Python adds to a `float`. */
  predicate NumericTemperature(config: map<string, Value>)
  {
    "temperature" in config ==> IsNumber(config["temperature"])
  }

  /** `model_config.get("temperature", 0.0)` */
  function BaseTemperature(config: map<string, Value>): real
    requires NumericTemperature(config)
  {
    if "temperature" in config then AsReal(config["temperature"]) else 0.0
  }

  /** The message of the `TypeError` that `base + float` raises for a stored temperature that is not a number. */
  function AddError(v: Value): string
    requires !IsNumber(v)
  {
    if v.Str? then "can only concatenate str (not \"float\") to str"
    else if v.StrList? then "can only concatenate list (not \"float\") to list"
    else if v.Counts? then "unsupported operand type(s) for +: 'dict' and 'float'"
    else "unsupported operand type(s) for +: 'NoneType' and 'float'"
  }

  /** `min(base + (attempt - 1) * increment, 1.0)` */
  function RetryTemperature(base: real, attempt: int, increment: real): (t: real)
    ensures t <= 1.0
    ensures t == base + (attempt - 1) as real * increment || t == 1.0
    ensures t < 1.0 ==> t == base + (attempt - 1) as real * increment
  {
    var raised := base + (attempt - 1) as real * increment;
    if raised <= 1.0 then raised else 1.0
  }

  /** Whether this call raises the temperature: a retry with variation switched on. */
  predicate Escalates(s: State, v: RetryVariation)
  {
    s.generationAttempts + 1 > 1 && v.enabled
  }

  /** Whether the call raises `TypeError`: it escalates a stored temperature that is not a number. */
  predicate RaisesTypeError(s: State, v: RetryVariation)
  {
    Escalates(s, v) && !NumericTemperature(s.modelConfig)
  }

  /** The model configuration the answer is generated with, and returned in the state, or the `TypeError`. */
  function EffectiveConfig(s: State, v: RetryVariation): Result<map<string, Value>>
  {
    if !Escalates(s, v) then Ok(s.modelConfig)
    else if !NumericTemperature(s.modelConfig) then Err(AddError(s.modelConfig["temperature"]))
    else Ok(s.modelConfig["temperature" := Num(RetryTemperature(BaseTemperature(s.modelConfig), s.generationAttempts + 1, v.increment))])
  }

  /**
   * `generate`: one more generation attempt and one more iteration, the answer
   * produced by `llm` for the ORIGINAL question with the documents as context,
   * the documents and both questions passed through, the fallback flags
   * cleared. A retry with variation on raises `TypeError` when the stored
   * temperature is not a number; a first attempt never reads it.
   */
  function Generate(s: State, v: RetryVariation, llm: GenerationCall -> string): (r: Result<State>)
    ensures r.Err? <==> RaisesTypeError(s, v)
    ensures r.Err? ==> r.error == AddError(s.modelConfig["temperature"])
    ensures r.Ok? ==>
      && r.value.generationAttempts == s.generationAttempts + 1
      && r.value.totalIterations == s.totalIterations + 1
      && r.value.transformAttempts == s.transformAttempts
      && r.value.documents == s.documents && r.value.question == s.question
      && r.value.originalQuestion == Some(OriginalOr(s))
      && r.value.collectionIds == s.collectionIds
      && r.value.generation == llm(GenerationCall(FormatDocs(AsItems(s.documents)), OriginalOr(s), r.value.modelConfig))
      && !r.value.maxIterationsReached && !r.value.noRelevantDocsFallback && r.value.fallbackType == ""
      && NumericTemperature(r.value.modelConfig) == NumericTemperature(s.modelConfig)
    ensures !Escalates(s, v) ==> r.Ok? && r.value.modelConfig == s.modelConfig
    ensures r.Ok? && Escalates(s, v) ==>
      && r.value.modelConfig.Keys == s.modelConfig.Keys + {"temperature"}
      && (forall key :: key in s.modelConfig && key != "temperature" ==> r.value.modelConfig[key] == s.modelConfig[key])
  {
    var original := OriginalOr(s);
    match EffectiveConfig(s, v)
    case Err(e) => Err(e)
    case Ok(config) =>
      var generation := llm(GenerationCall(FormatDocs(AsItems(s.documents)), original, config));
      Ok(State(
        question := s.question,
        originalQuestion := Some(original),
        generation := generation,
        documents := s.documents,
        modelConfig := config,
        collectionIds := s.collectionIds,
        generationAttempts := s.generationAttempts + 1,
        transformAttempts := s.transformAttempts,
        totalIterations := s.totalIterations + 1,
        maxIterationsReached := false,
        noRelevantDocsFallback := false,
        fallbackType := ""))
  }

  /**
   * On a retry with variation on, the stored temperature becomes
   * `min(base + (n - 1) * increment, 1.0)`: never above 1.0, and never below
   * the base when the increment is not negative and the base is at most 1.0.
   */
  lemma EscalatedTemperature(s: State, v: RetryVariation, llm: GenerationCall -> string)
    requires Escalates(s, v) && NumericTemperature(s.modelConfig)
    ensures Generate(s, v, llm).Ok?
    ensures var r := Generate(s, v, llm).value;
      && "temperature" in r.modelConfig && r.modelConfig["temperature"].Num?
      && r.modelConfig["temperature"].r <= 1.0
      && r.modelConfig["temperature"].r == RetryTemperature(BaseTemperature(s.modelConfig), s.generationAttempts + 1, v.increment)
      && (v.increment >= 0.0 && BaseTemperature(s.modelConfig) <= 1.0 ==> r.modelConfig["temperature"].r >= BaseTemperature(s.modelConfig))
  {
  }

  /**
   * The raised temperature is written back, so the next attempt escalates from
   * it: after two retries in a row the temperature has compounded.
   */
  lemma TemperatureCompounds(s: State, v: RetryVariation, llm1: GenerationCall -> string, llm2: GenerationCall -> string)
    requires s.generationAttempts >= 1 && v.enabled && NumericTemperature(s.modelConfig)
    ensures Generate(s, v, llm1).Ok?
    ensures var r1 := Generate(s, v, llm1).value;
      var t1 := RetryTemperature(BaseTemperature(s.modelConfig), s.generationAttempts + 1, v.increment);
      && NumericTemperature(r1.modelConfig)
      && BaseTemperature(r1.modelConfig) == t1
      && Generate(r1, v, llm2).Ok?
      && Generate(r1, v, llm2).value.modelConfig["temperature"] == Num(RetryTemperature(t1, s.generationAttempts + 2, v.increment))
  {
  }

  /**
   * The answer never depends on the (possibly rewritten) current question once
   * the original is stored: two states that differ only in `question` produce
   * the same answer, or raise alike.
   */
  lemma AnswersOriginalQuestion(s: State, q: string, v: RetryVariation, llm: GenerationCall -> string)
    requires s.originalQuestion.Some?
    ensures Generate(s.(question := q), v, llm).Ok? == Generate(s, v, llm).Ok?
    ensures Generate(s, v, llm).Ok? ==> Generate(s.(question := q), v, llm).value.generation == Generate(s, v, llm).value.generation
  {
  }
}
