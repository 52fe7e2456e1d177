/** The request bodies declared in `server/src/api/schemas.py`: each model's field
    constraints as a validity predicate, and the validation of an incoming body, field by
    field, into either the model with its defaults filled in or the names of the fields
    that failed. Type coercion is not modelled: a given value already has the field's type. */
module Schemas {
  import opened Wrappers

  /** One field of an incoming body: left out, an explicit `null`, or a value. */
  datatype Field<T> = Absent | Null | Given(value: T)

  const MaxTokensDefault: int := 512
  const MaxTokensMin: int := 1
  const MaxTokensMax: int := 2048
  const TemperatureDefault: real := 0.7
  const TopPDefault: real := 0.9
  const ImportanceDefault: int := 0

  predicate MaxTokensOk(n: int) { MaxTokensMin <= n <= MaxTokensMax }
  predicate TemperatureOk(t: real) { 0.0 <= t <= 2.0 }
  predicate TopPOk(p: real) { 0.0 <= p <= 1.0 }
  predicate PenaltyOk(p: real) { -2.0 <= p <= 2.0 }
  predicate ImportanceOk(i: int) { 0 <= i <= 10 }

  /** [name] when the field failed, else nothing. */
  function Flag(name: string, passed: bool): (r: seq<string>)
    ensures name in r <==> !passed
    ensures |r| <= 1
  {
    if passed then [] else [name]
  }

  // ---------------------------------------------------------------------------
  // MessageRequest

  datatype MessageRequest = MessageRequest(content: string, maxTokens: Option<int>, temperature: Option<real>)

  datatype MessageRequestBody = MessageRequestBody(content: Field<string>, maxTokens: Field<int>,
                                                   temperature: Field<real>)

  /** The constraints of `MessageRequest`: non-empty content, and each optional bound met
      when the value is present. */
  predicate ValidMessageRequest(m: MessageRequest)
  {
    && |m.content| >= 1
    && (m.maxTokens.Some? ==> MaxTokensOk(m.maxTokens.value))
    && (m.temperature.Some? ==> TemperatureOk(m.temperature.value))
  }

  predicate ContentOk(b: MessageRequestBody) { b.content.Given? && |b.content.value| >= 1 }
  predicate RequestMaxTokensOk(b: MessageRequestBody) { !b.maxTokens.Given? || MaxTokensOk(b.maxTokens.value) }
  predicate RequestTemperatureOk(b: MessageRequestBody) { !b.temperature.Given? || TemperatureOk(b.temperature.value) }

  /** An `Optional` field with a default: left out gives the default, `null` gives
      nothing. */
  function Defaulted<T>(f: Field<T>, default: T): Option<T>
  {
    match f
    case Absent => Some(default)
    case Null => None
    case Given(v) => Some(v)
  }

  /** Validating a `MessageRequest` body. */
  function ParseMessageRequest(b: MessageRequestBody): (r: Result<MessageRequest, seq<string>>)
    ensures r.Ok? <==> ContentOk(b) && RequestMaxTokensOk(b) && RequestTemperatureOk(b)
    ensures r.Ok? ==> ValidMessageRequest(r.value) && r.value.content == b.content.value
    ensures r.Ok? ==> (b.maxTokens.Absent? ==> r.value.maxTokens == Some(MaxTokensDefault))
                      && (b.maxTokens.Null? <==> r.value.maxTokens.None?)
                      && (b.maxTokens.Given? ==> r.value.maxTokens == Some(b.maxTokens.value))
    ensures r.Ok? ==> (b.temperature.Absent? ==> r.value.temperature == Some(TemperatureDefault))
                      && (b.temperature.Null? <==> r.value.temperature.None?)
                      && (b.temperature.Given? ==> r.value.temperature == Some(b.temperature.value))
    ensures r.Err? ==> r.error != []
                       && ("content" in r.error <==> !ContentOk(b))
                       && ("max_tokens" in r.error <==> !RequestMaxTokensOk(b))
                       && ("temperature" in r.error <==> !RequestTemperatureOk(b))
  {
    if ContentOk(b) && RequestMaxTokensOk(b) && RequestTemperatureOk(b) then
      Ok(MessageRequest(b.content.value, Defaulted(b.maxTokens, MaxTokensDefault),
                        Defaulted(b.temperature, TemperatureDefault)))
    else
      Err(Flag("content", ContentOk(b)) + Flag("max_tokens", RequestMaxTokensOk(b))
          + Flag("temperature", RequestTemperatureOk(b)))
  }

  /** The body that sends every field of `m`, `null` for an absent optional value. */
  function MessageRequestBodyOf(m: MessageRequest): MessageRequestBody
  {
    MessageRequestBody(Given(m.content),
                       if m.maxTokens.Some? then Given(m.maxTokens.value) else Null,
                       if m.temperature.Some? then Given(m.temperature.value) else Null)
  }

  /** A request survives being sent and validated again exactly when it is valid. */
  lemma MessageRequestRoundTrip(m: MessageRequest)
    ensures ParseMessageRequest(MessageRequestBodyOf(m)) == Ok(m) <==> ValidMessageRequest(m)
  {
  }

  /** An empty message is refused whatever the other fields say, and so is a token
      limit outside 1 to 2048. */
  lemma MessageRequestRejects(b: MessageRequestBody, n: int)
    requires !MaxTokensOk(n)
    ensures ParseMessageRequest(b.(content := Given(""))).Err?
    ensures "content" in ParseMessageRequest(b.(content := Given(""))).error
    ensures ParseMessageRequest(b.(maxTokens := Given(n))).Err?
    ensures "max_tokens" in ParseMessageRequest(b.(maxTokens := Given(n))).error
  {
  }

  // ---------------------------------------------------------------------------
  // ModelSettings

  datatype ModelSettings = ModelSettings(temperature: real, topP: real, maxTokens: int,
                                         frequencyPenalty: real, presencePenalty: real)

  datatype ModelSettingsBody = ModelSettingsBody(temperature: Field<real>, topP: Field<real>, maxTokens: Field<int>,
                                                 frequencyPenalty: Field<real>, presencePenalty: Field<real>)

  predicate ValidModelSettings(s: ModelSettings)
  {
    TemperatureOk(s.temperature) && TopPOk(s.topP) && MaxTokensOk(s.maxTokens)
    && PenaltyOk(s.frequencyPenalty) && PenaltyOk(s.presencePenalty)
  }

  function DefaultModelSettings(): ModelSettings
  {
    ModelSettings(TemperatureDefault, TopPDefault, MaxTokensDefault, 0.0, 0.0)
  }

  /** A non-`Optional` field with a default: left out or within bounds, never `null`. */
  predicate RealSettingOk(f: Field<real>, lo: real, hi: real) { f.Absent? || (f.Given? && lo <= f.value <= hi) }
  predicate IntSettingOk(f: Field<int>, lo: int, hi: int) { f.Absent? || (f.Given? && lo <= f.value <= hi) }

  function OrDefault<T>(f: Field<T>, default: T): T
  {
    if f.Given? then f.value else default
  }

  predicate SettingsBodyOk(b: ModelSettingsBody)
  {
    && RealSettingOk(b.temperature, 0.0, 2.0)
    && RealSettingOk(b.topP, 0.0, 1.0)
    && IntSettingOk(b.maxTokens, MaxTokensMin, MaxTokensMax)
    && RealSettingOk(b.frequencyPenalty, -2.0, 2.0)
    && RealSettingOk(b.presencePenalty, -2.0, 2.0)
  }

  /** Validating a `ModelSettings` body: no field may be `null`, a left-out field takes its
      default. */
  function ParseModelSettings(b: ModelSettingsBody): (r: Result<ModelSettings, seq<string>>)
    ensures r.Ok? <==> SettingsBodyOk(b)
    ensures r.Ok? ==> ValidModelSettings(r.value)
    ensures r.Ok? ==> && r.value.temperature == (if b.temperature.Given? then b.temperature.value else TemperatureDefault)
                      && r.value.topP == (if b.topP.Given? then b.topP.value else TopPDefault)
                      && r.value.maxTokens == (if b.maxTokens.Given? then b.maxTokens.value else MaxTokensDefault)
                      && r.value.frequencyPenalty == (if b.frequencyPenalty.Given? then b.frequencyPenalty.value else 0.0)
                      && r.value.presencePenalty == (if b.presencePenalty.Given? then b.presencePenalty.value else 0.0)
    ensures (|| b.temperature.Null? || b.topP.Null? || b.maxTokens.Null?
             || b.frequencyPenalty.Null? || b.presencePenalty.Null?) ==> r.Err?
    ensures r.Err? ==> r.error != []
                       && ("temperature" in r.error <==> !RealSettingOk(b.temperature, 0.0, 2.0))
                       && ("top_p" in r.error <==> !RealSettingOk(b.topP, 0.0, 1.0))
                       && ("max_tokens" in r.error <==> !IntSettingOk(b.maxTokens, MaxTokensMin, MaxTokensMax))
                       && ("frequency_penalty" in r.error <==> !RealSettingOk(b.frequencyPenalty, -2.0, 2.0))
                       && ("presence_penalty" in r.error <==> !RealSettingOk(b.presencePenalty, -2.0, 2.0))
  {
    if SettingsBodyOk(b) then
      Ok(ModelSettings(OrDefault(b.temperature, TemperatureDefault), OrDefault(b.topP, TopPDefault),
                       OrDefault(b.maxTokens, MaxTokensDefault), OrDefault(b.frequencyPenalty, 0.0),
                       OrDefault(b.presencePenalty, 0.0)))
    else
      Err(Flag("temperature", RealSettingOk(b.temperature, 0.0, 2.0))
          + Flag("top_p", RealSettingOk(b.topP, 0.0, 1.0))
          + Flag("max_tokens", IntSettingOk(b.maxTokens, MaxTokensMin, MaxTokensMax))
          + Flag("frequency_penalty", RealSettingOk(b.frequencyPenalty, -2.0, 2.0))
          + Flag("presence_penalty", RealSettingOk(b.presencePenalty, -2.0, 2.0)))
  }

  /** The declared defaults meet their own bounds, and an empty body validates to them. */
  lemma DefaultsValid()
    ensures ValidModelSettings(DefaultModelSettings())
    ensures ParseModelSettings(ModelSettingsBody(Absent, Absent, Absent, Absent, Absent)) == Ok(DefaultModelSettings())
  {
  }

  /** Settings survive being sent in full and validated again exactly when they are valid. */
  lemma ModelSettingsRoundTrip(s: ModelSettings)
    ensures var b := ModelSettingsBody(Given(s.temperature), Given(s.topP), Given(s.maxTokens),
                                       Given(s.frequencyPenalty), Given(s.presencePenalty));
            ParseModelSettings(b) == Ok(s) <==> ValidModelSettings(s)
  {
  }

  // ---------------------------------------------------------------------------
  // Memory

  /** A validated `Memory`. `content` is `None` for `null`; `metadata` values are text. */
  datatype Memory = Memory(content: Option<string>, kind: string, metadata: Option<map<string, string>>,
                           importance: Option<int>, timestamp: Option<int>)

  datatype MemoryBody = MemoryBody(content: Field<string>, kind: Field<string>,
                                   metadata: Field<map<string, string>>, importance: Field<int>,
                                   timestamp: Field<int>)

  predicate ValidMemory(m: Memory)
  {
    m.importance.Some? ==> ImportanceOk(m.importance.value)
  }

  predicate MemoryImportanceOk(b: MemoryBody) { !b.importance.Given? || ImportanceOk(b.importance.value) }

  /** Validating a `Memory` body: `type` is required and may not be `null`, `importance`
      must lie in 0 to 10 and defaults to 0, `metadata` defaults to the empty dictionary;
      `content` (of type `Any`) and `timestamp` default to `None`. */
  function ParseMemory(b: MemoryBody): (r: Result<Memory, seq<string>>)
    ensures r.Ok? <==> b.kind.Given? && MemoryImportanceOk(b)
    ensures r.Ok? ==> ValidMemory(r.value) && r.value.kind == b.kind.value
    ensures r.Ok? ==> (b.importance.Absent? ==> r.value.importance == Some(ImportanceDefault))
                      && (b.importance.Given? ==> r.value.importance == Some(b.importance.value))
                      && (b.importance.Null? ==> r.value.importance == None)
    ensures r.Ok? ==> (b.metadata.Absent? ==> r.value.metadata == Some(map[]))
                      && (b.metadata.Given? ==> r.value.metadata == Some(b.metadata.value))
                      && (b.metadata.Null? ==> r.value.metadata == None)
    ensures r.Ok? ==> (!b.timestamp.Given? ==> r.value.timestamp == None)
                      && (!b.content.Given? ==> r.value.content == None)
                      && (b.timestamp.Given? ==> r.value.timestamp == Some(b.timestamp.value))
                      && (b.content.Given? ==> r.value.content == Some(b.content.value))
    ensures r.Err? ==> r.error != []
                       && ("importance" in r.error <==> !MemoryImportanceOk(b))
                       && ("type" in r.error <==> !b.kind.Given?)
  {
    if b.kind.Given? && MemoryImportanceOk(b) then
      Ok(Memory(if b.content.Given? then Some(b.content.value) else None, b.kind.value, Defaulted(b.metadata, map[]),
                Defaulted(b.importance, ImportanceDefault), if b.timestamp.Given? then Some(b.timestamp.value) else None))
    else
      Err(Flag("type", b.kind.Given?) + Flag("importance", MemoryImportanceOk(b)))
  }

  /** A memory body carrying only its type validates to the defaults. */
  lemma MemoryDefaults(kind: string)
    ensures ParseMemory(MemoryBody(Absent, Given(kind), Absent, Absent, Absent))
            == Ok(Memory(None, kind, Some(map[]), Some(0), None))
  {
  }
}
