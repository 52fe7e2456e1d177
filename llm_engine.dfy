/** The status lifecycle, response cache short-cut and settings of the `LLMEngine` of
    `server/src/llm/engine.py`. The model file check, the llama.cpp load and completion
    calls, the process metrics and the cache contents are parameters: each may succeed
    or fail, and the model says what the engine does in either case. */
module LlmEngine {
  import opened Wrappers
  import opened Constants
  import PyText

  /** The text Python gives a `float` such as `0.7`; it never holds a colon. */
  type FloatText = s: string | ':' !in s witness "0.7"

  /** A value of the settings dictionary. */
  datatype SettingValue = Number(x: real) | Whole(n: int) | Words(items: seq<string>) | Text(s: string) | Flag(b: bool)

  type Settings = map<string, SettingValue>

  /** The `ModelError` the engine raises: message, code and the `details["error"]` text. */
  datatype EngineError = EngineError(message: string, code: ErrorCode, detail: string)

  /** What `create_completion` hands back: the first choice's text and finish reason
      and the total token usage. */
  datatype Completion = Completion(text: string, totalTokens: int, finishReason: string)

  /** The result dictionary of `generate_response` (the generation time, a clock
      reading, is not kept). */
  datatype Reply = Reply(response: string, tokensUsed: int, finishReason: string)

  /** The `get_status()` dictionary; `settings` and `contextSize` are absent when the
      process metrics could not be read. */
  datatype StatusReport = StatusReport(
    status: ModelStatus,
    modelPath: string,
    ready: bool,
    settings: Option<Settings>,
    contextSize: Option<int>)

  /** The settings of a new engine. */
  function DefaultSettings(): (s: Settings)
    ensures s.Keys == {"temperature", "max_tokens", "top_p", "frequency_penalty",
                       "presence_penalty", "stop_sequences"}
    ensures s["temperature"] == Number(0.7) && s["max_tokens"] == Whole(512)
    ensures s["top_p"] == Number(0.9)
    ensures s["frequency_penalty"] == Number(0.0) && s["presence_penalty"] == Number(0.0)
    ensures s["stop_sequences"] == Words([])
  {
    map["temperature" := Number(0.7), "max_tokens" := Whole(512), "top_p" := Number(0.9),
        "frequency_penalty" := Number(0.0), "presence_penalty" := Number(0.0),
        "stop_sequences" := Words([])]
  }

  /** The cache key of a request: `llm_response:{prompt}:{max_tokens}:{temperature}`. */
  function CacheKey(prompt: string, maxTokens: int, temperature: FloatText): string
  {
    "llm_response:" + prompt + ":" + PyText.IntText(maxTokens) + ":" + temperature
  }

  /** The part of `s` after its last colon (all of `s` when it has none). */
  function AfterLastColon(s: string): string
    decreases |s|
  {
    if s == [] || s[|s| - 1] == ':' then [] else AfterLastColon(s[..|s| - 1]) + [s[|s| - 1]]
  }

  /** The part of `s` before its last colon. */
  function BeforeLastColon(s: string): string
    decreases |s|
  {
    if s == [] then [] else if s[|s| - 1] == ':' then s[..|s| - 1] else BeforeLastColon(s[..|s| - 1])
  }

  /** Joining with a colon a text and a colon-free text is undone by splitting at the
      last colon. */
  lemma {:induction false} SplitAtLastColon(x: string, y: string)
    requires ':' !in y
    ensures AfterLastColon(x + ":" + y) == y && BeforeLastColon(x + ":" + y) == x
    decreases |y|
  {
    var s := x + ":" + y;
    if y == [] {
      assert s[..|s| - 1] == x;
    } else {
      var y0 := y[..|y| - 1];
      assert s[|s| - 1] == y[|y| - 1];
      assert s[..|s| - 1] == x + ":" + y0;
      SplitAtLastColon(x, y0);
      assert y0 + [y[|y| - 1]] == y;
    }
  }

  /** The cache key determines the prompt, the token limit and the temperature: requests
      that differ in any of them, the temperature included, never share a cache entry. */
  lemma CacheKeyInjective(p: string, m: int, t: FloatText, p': string, m': int, t': FloatText)
    requires CacheKey(p, m, t) == CacheKey(p', m', t')
    ensures p == p' && m == m' && t == t'
  {
    var a, a' := PyText.IntText(m), PyText.IntText(m');
    assert ("llm_response:" + p + ":" + a) + ":" + t == CacheKey(p, m, t);
    assert ("llm_response:" + p' + ":" + a') + ":" + t' == CacheKey(p', m', t');
    SplitAtLastColon("llm_response:" + p + ":" + a, t);
    SplitAtLastColon("llm_response:" + p' + ":" + a', t');
    assert ("llm_response:" + p) + ":" + a == "llm_response:" + p + ":" + a;
    assert ("llm_response:" + p') + ":" + a' == "llm_response:" + p' + ":" + a';
    SplitAtLastColon("llm_response:" + p, a);
    SplitAtLastColon("llm_response:" + p', a');
    assert p == ("llm_response:" + p)[13..];
    assert p' == ("llm_response:" + p')[13..];
    PyText.IntTextInjective(m, m');
  }

  /** The reply built from a completion: the text stripped of surrounding white space. */
  function ReplyOf(c: Completion): (r: Reply)
    ensures |r.response| <= |c.text|
    ensures r.response == [] <==> PyText.AllSpace(c.text)
    ensures r.tokensUsed == c.totalTokens && r.finishReason == c.finishReason
  {
    Reply(PyText.Strip(c.text), c.totalTokens, c.finishReason)
  }

  /** The status and whether a model object is held. */
  datatype EngineState = EngineState(status: ModelStatus, loaded: bool)

  /** One call on the engine, with the outcome of what it depends on. */
  datatype Call =
    | Initialize(fileExists: bool, loadOk: bool)
    | Generate(cacheHit: bool, completionOk: bool)
    | UpdateSettings

  /** The state after one call. */
  function Step(s: EngineState, c: Call): EngineState
  {
    match c
    case Initialize(fileExists, loadOk) =>
      if fileExists && loadOk then EngineState(READY, true) else EngineState(ERROR, s.loaded)
    case Generate(cacheHit, completionOk) =>
      if !s.loaded || s.status != READY then EngineState(ERROR, s.loaded)
      else if cacheHit || completionOk then s
      else EngineState(ERROR, s.loaded)
    case UpdateSettings => s
  }

  /** The state after a sequence of calls. */
  function Run(s: EngineState, calls: seq<Call>): EngineState
    decreases |calls|
  {
    if calls == [] then s else Run(Step(s, calls[0]), calls[1..])
  }

  predicate IsInitialize(c: Call) { c.Initialize? }

  /** Once in ERROR, the engine stays in ERROR through any calls but `initialize`. */
  lemma {:induction false} ErrorSticky(s: EngineState, calls: seq<Call>)
    requires s.status == ERROR
    requires forall i :: 0 <= i < |calls| ==> !IsInitialize(calls[i])
    ensures Run(s, calls).status == ERROR
    decreases |calls|
  {
    if calls != [] {
      ErrorSticky(Step(s, calls[0]), calls[1..]);
    }
  }

  /** The engine ends READY only if it started READY, or some `initialize`
      in the sequence succeeded. */
  lemma {:induction false} ReadyNeedsInitialize(s: EngineState, calls: seq<Call>)
    requires Run(s, calls).status == READY
    ensures s.status == READY || exists i :: 0 <= i < |calls| && calls[i] == Initialize(true, true)
    decreases |calls|
  {
    if calls != [] {
      var s1 := Step(s, calls[0]);
      ReadyNeedsInitialize(s1, calls[1..]);
      if s1.status == READY {
        if calls[0] == Initialize(true, true) {
          assert calls[0] == Initialize(true, true);
        } else {
          assert s.status == READY;
        }
      } else {
        var i :| 0 <= i < |calls[1..]| && calls[1..][i] == Initialize(true, true);
        assert calls[i + 1] == Initialize(true, true);
      }
    }
  }

  /** A settings update, or a generation served from the cache or the model. */
  predicate Answered(c: Call)
  {
    c.UpdateSettings? || (c.Generate? && (c.cacheHit || c.completionOk))
  }

  /** A ready engine whose first call is answered stays ready and can answer again. */
  lemma ReadyServesRepeatedly(calls: seq<Call>)
    requires forall i :: 0 <= i < |calls| ==> Answered(calls[i])
    ensures Run(EngineState(READY, true), calls) == EngineState(READY, true)
    decreases |calls|
  {
    if calls != [] {
      ReadyServesRepeatedly(calls[1..]);
    }
  }

  /** The engine object. `modelLoaded` stands for `self.model` being set. */
  class Engine {
    const modelPath: string
    var modelLoaded: bool
    var status: ModelStatus
    var settings: Settings

    /** `__init__`: status INITIALIZING, no model, the default settings. */
    constructor (modelPath: string)
      ensures this.modelPath == modelPath
      ensures status == INITIALIZING && !modelLoaded && settings == DefaultSettings()
    {
      this.modelPath := modelPath;
      modelLoaded := false;
      status := INITIALIZING;
      settings := DefaultSettings();
    }

    /** `initialize`: READY when the file exists and the model loads; otherwise ERROR and
        a `MODEL_LOAD_FAILED` error whose detail is the text of the inner failure (the
        missing-file `MODEL_NOT_FOUND` error is rewrapped). A model loaded earlier is
        kept when a later load fails. */
    method Initialize(fileExists: bool, loadError: Option<string>) returns (err: Option<EngineError>)
      modifies this`modelLoaded, this`status
      ensures EngineState(status, modelLoaded)
              == Step(old(EngineState(status, modelLoaded)), Call.Initialize(fileExists, loadError == None))
      ensures fileExists && loadError == None ==> err == None
      ensures !fileExists ==>
                err == Some(EngineError("Failed to initialize model", MODEL_LOAD_FAILED, "Model file not found"))
      ensures fileExists && loadError != None ==>
                err == Some(EngineError("Failed to initialize model", MODEL_LOAD_FAILED, loadError.value))
    {
      var failure: Option<string> := None;
      if !fileExists {
        failure := Some("Model file not found");
      } else if loadError.Some? {
        failure := loadError;
      } else {
        modelLoaded := true;
        status := READY;
      }
      if failure.Some? {
        status := ERROR;
        err := Some(EngineError("Failed to initialize model", MODEL_LOAD_FAILED, failure.value));
      } else {
        err := None;
      }
    }

    /** `generate_response`, given the cache contents and the completion's outcome; it
        returns the reply or the error, and the cache afterwards. */
    method GenerateResponse(prompt: string, maxTokens: int, temperature: FloatText, useCache: bool,
                            cache: map<string, Reply>, completion: Result<Completion, string>)
      returns (out: Result<Reply, EngineError>, cacheAfter: map<string, Reply>)
      modifies this`status
      ensures EngineState(status, modelLoaded)
              == Step(old(EngineState(status, modelLoaded)),
                      Generate(useCache && CacheKey(prompt, maxTokens, temperature) in cache, completion.Ok?))
      ensures !modelLoaded || old(status) != READY ==>
                out.Err? && out.error.message == "Failed to generate response"
                && out.error.code == MODEL_RESPONSE_FAILED && cacheAfter == cache
      ensures modelLoaded && old(status) == READY && useCache && CacheKey(prompt, maxTokens, temperature) in cache ==>
                out == Ok(cache[CacheKey(prompt, maxTokens, temperature)]) && cacheAfter == cache
      ensures modelLoaded && old(status) == READY && !(useCache && CacheKey(prompt, maxTokens, temperature) in cache) ==>
                match completion
                case Ok(c) =>
                  && out == Ok(ReplyOf(c))
                  && cacheAfter == if useCache then cache[CacheKey(prompt, maxTokens, temperature) := ReplyOf(c)] else cache
                case Err(e) =>
                  out == Err(EngineError("Failed to generate response", MODEL_RESPONSE_FAILED, e)) && cacheAfter == cache
    {
      cacheAfter := cache;
      if !modelLoaded || status != READY {
        status := ERROR;
        out := Err(EngineError("Failed to generate response", MODEL_RESPONSE_FAILED, "MODEL_NOT_READY"));
        return;
      }
      var key := CacheKey(prompt, maxTokens, temperature);
      if useCache && key in cache {
        out := Ok(cache[key]);
        return;
      }
      status := PROCESSING;
      match completion {
        case Err(e) =>
          status := ERROR;
          out := Err(EngineError("Failed to generate response", MODEL_RESPONSE_FAILED, e));
        case Ok(c) =>
          var reply := ReplyOf(c);
          if useCache {
            cacheAfter := cache[key := reply];
          }
          status := READY;
          out := Ok(reply);
      }
    }

    /** `update_settings`: the given keys take the given values, every other key keeps
        its value, and status is untouched. */
    method UpdateSettings(s: Settings)
      modifies this`settings
      ensures settings.Keys == old(settings).Keys + s.Keys
      ensures forall k :: k in s ==> settings[k] == s[k]
      ensures forall k :: k in old(settings) && k !in s ==> settings[k] == old(settings)[k]
    {
      settings := settings + s;
    }

    /** `get_status`, given whether the process metrics could be read. */
    method GetStatus(metricsOk: bool) returns (r: StatusReport)
      ensures r.status == status && r.modelPath == modelPath
      ensures r.ready <==> metricsOk && status == READY
      ensures metricsOk ==> r.settings == Some(settings)
                            && r.contextSize == Some(if modelLoaded then 2048 else 0)
      ensures !metricsOk ==> r.settings == None && r.contextSize == None
    {
      if metricsOk {
        r := StatusReport(status, modelPath, status == READY, Some(settings),
                          Some(if modelLoaded then 2048 else 0));
      } else {
        r := StatusReport(status, modelPath, false, None, None);
      }
    }
  }

  /** The cached round trip of the engine tests: after a successful initialize, the same
      request twice yields the same reply, the second time from the cache, and a
      request at another temperature is not answered from that entry. */
  method CachedRequestScenario(c: Completion, c2: Completion)
  {
    var engine := new Engine("test-model");
    var err := engine.Initialize(true, None);
    assert err == None && engine.status == READY;
    var cache: map<string, Reply> := map[];
    var r1, cache1 := engine.GenerateResponse("Test prompt for caching", 512, "0.7", true, cache, Ok(c));
    var r2, cache2 := engine.GenerateResponse("Test prompt for caching", 512, "0.7", true, cache1, Ok(c2));
    assert r1 == r2 == Ok(ReplyOf(c));
    var k3 := CacheKey("Test prompt for caching", 512, "0.8");
    var k1 := CacheKey("Test prompt for caching", 512, "0.7");
    assert k3 != k1 by {
      if k3 == k1 {
        CacheKeyInjective("Test prompt for caching", 512, "0.8", "Test prompt for caching", 512, "0.7");
      }
    }
    var r3, cache3 := engine.GenerateResponse("Test prompt for caching", 512, "0.8", true, cache2, Ok(c2));
    assert r3 == Ok(ReplyOf(c2));
    engine.status := ERROR;
    var r4, cache4 := engine.GenerateResponse("Should fail", 512, "0.7", true, cache3, Ok(c));
    assert r4.Err?;
  }
}
