/**
  The model engine (src/engine.py): the configuration read from the
  environment, the dispatch on the backend name, the request each backend
  adapter sends, the normaliser that turns a raw Ollama answer into an
  OpenAI-shaped completion, and the scan that pulls a function call out of
  free text. The HTTP round trip is the parameter `post`: the model states
  which request is sent and what is done with the answer.
*/
module Engine {
  import opened Wrappers
  import opened JsonModel
  import opened Text
  import opened Host

  // ---------------------------------------------------------------------
  // Configuration
  // ---------------------------------------------------------------------

  /** The process environment, as `os.getenv` sees it. */
  type Env = map<string, string>

  /** `os.getenv(key, default)`. */
  function Getenv(env: Env, key: string, default: string): string {
    if key in env then env[key] else default
  }

  /**
    A model configuration dict. A key that is absent is `None`; `.get(key, d)`
    is `.GetOr(d)`.
  */
  datatype ModelConfig = ModelConfig(
    backend: Option<string>,
    modelName: Option<string>,
    baseUrl: Option<string>,
    toolFormat: Option<string>,
    useRawMode: Option<bool>,
    apiKey: Option<string>)

  /** `v` is "true" in any mix of upper and lower case. */
  predicate SpellsTrue(v: string) {
    |v| == 4 && v[0] in "tT" && v[1] in "rR" && v[2] in "uU" && v[3] in "eE"
  }

  /** `os.getenv("USE_RAW_MODE", "false").lower() == "true"`. */
  function RawModeFlag(env: Env): (r: bool)
    ensures r <==> SpellsTrue(Getenv(env, "USE_RAW_MODE", "false"))
    ensures "USE_RAW_MODE" !in env ==> !r
  {
    LowerIsTrue(Getenv(env, "USE_RAW_MODE", "false"));
    Lower(Getenv(env, "USE_RAW_MODE", "false")) == "true"
  }

  /** Lower-casing gives "true" exactly for the case variants of "true". */
  lemma LowerIsTrue(v: string)
    ensures Lower(v) == "true" <==> SpellsTrue(v)
  {
    if |v| == 4 {
      if Lower(v) == "true" {
        assert LowerChar(v[0]) == 't' && LowerChar(v[1]) == 'r';
        assert LowerChar(v[2]) == 'u' && LowerChar(v[3]) == 'e';
      }
      if SpellsTrue(v) {
        assert Lower(v) == [LowerChar(v[0]), LowerChar(v[1]), LowerChar(v[2]), LowerChar(v[3])];
      }
    }
  }

  /** `get_default_config()`: every key but "api_key", each from the environment or its default. */
  function GetDefaultConfig(env: Env): (r: ModelConfig)
    ensures r.apiKey == None
    ensures r.backend.Some? && r.modelName.Some? && r.baseUrl.Some? && r.toolFormat.Some?
    ensures "MODEL_BACKEND" in env ==> r.backend == Some(env["MODEL_BACKEND"])
    ensures "MODEL_NAME" in env ==> r.modelName == Some(env["MODEL_NAME"])
    ensures "MODEL_BASE_URL" in env ==> r.baseUrl == Some(env["MODEL_BASE_URL"])
    ensures "TOOL_FORMAT" in env ==> r.toolFormat == Some(env["TOOL_FORMAT"])
    ensures "MODEL_BACKEND" !in env ==> r.backend == Some("ollama")
    ensures "MODEL_NAME" !in env ==> r.modelName == Some("default")
    ensures "MODEL_BASE_URL" !in env ==> r.baseUrl == Some("http://localhost:11434")
    ensures "TOOL_FORMAT" !in env ==> r.toolFormat == Some("json")
    ensures r.useRawMode == Some(SpellsTrue(Getenv(env, "USE_RAW_MODE", "false")))
  {
    ModelConfig(
      Some(Getenv(env, "MODEL_BACKEND", "ollama")),
      Some(Getenv(env, "MODEL_NAME", "default")),
      Some(Getenv(env, "MODEL_BASE_URL", "http://localhost:11434")),
      Some(Getenv(env, "TOOL_FORMAT", "json")),
      Some(RawModeFlag(env)),
      None)
  }

  // ---------------------------------------------------------------------
  // Backends and the requests they send
  // ---------------------------------------------------------------------

  datatype Backend = Ollama | Vllm | OpenAI

  /** The backend name `call_model` compares against. */
  function BackendName(b: Backend): string {
    match b
    case Ollama => "ollama"
    case Vllm => "vllm"
    case OpenAI => "openai"
  }

  /** The branch of `call_model` a backend name selects; `None` is the ValueError branch. */
  function ParseBackend(name: string): (r: Option<Backend>)
    ensures r.Some? ==> BackendName(r.value) == name
    ensures r.None? <==> name != "ollama" && name != "vllm" && name != "openai"
  {
    if name == "ollama" then Some(Ollama)
    else if name == "vllm" then Some(Vllm)
    else if name == "openai" then Some(OpenAI)
    else None
  }

  /** Every backend is selected by its own name. */
  lemma ParseBackendName(b: Backend)
    ensures ParseBackend(BackendName(b)) == Some(b)
  {
  }

  /** One outbound `httpx.post`: the URL, the headers and the JSON body. */
  datatype HttpRequest = HttpRequest(url: string, headers: seq<(string, string)>, payload: Json)

  /** The transport: the decoded JSON answer, or the exception that `post`, `raise_for_status` or `.json()` raised. */
  type Transport = HttpRequest -> Result<Json, Error>

  /** The prompt `call_ollama` sends: markup tools (a non-empty string) are appended after a blank line. */
  function OllamaPrompt(prompt: string, tools: Json): string {
    if Truthy(tools) && tools.Str? then prompt + "\n\n" + tools.s else prompt
  }

  /**
    The payload `call_ollama` sends, in key order: "model", "prompt",
    "stream", "options", then "context" for truthy structured tools and "raw"
    in raw mode.
  */
  function OllamaPayload(prompt: string, tools: Json, config: ModelConfig, temperature: Json, maxTokens: Json,
                         rt: Runtime): Fields
  {
    [("model", Str(config.modelName.GetOr("default"))),
     ("prompt", Str(OllamaPrompt(prompt, tools))),
     ("stream", Bool(false)),
     ("options", Obj([("temperature", temperature), ("num_predict", maxTokens)]))]
    + (if Truthy(tools) && !tools.Str? then [("context", Str(rt.dumps(tools)))] else [])
    + (if config.useRawMode == Some(true) then [("raw", Bool(true))] else [])
  }

  /** The request `call_ollama` sends. */
  function OllamaRequestFor(prompt: string, tools: Json, config: ModelConfig, temperature: Json, maxTokens: Json,
                            rt: Runtime): HttpRequest
  {
    HttpRequest(config.baseUrl.GetOr("http://localhost:11434") + "/api/generate", [],
                Obj(OllamaPayload(prompt, tools, config, temperature, maxTokens, rt)))
  }

  /** The body `call_vllm` and `call_openai_compatible` both send: one user message, then tools as a list when truthy. */
  function ChatFields(modelName: string, prompt: string, tools: Json, temperature: Json, maxTokens: Json): Fields {
    [("model", Str(modelName)),
     ("messages", Arr([Obj([("role", Str("user")), ("content", Str(prompt))])])),
     ("temperature", temperature),
     ("max_tokens", maxTokens)]
    + (if Truthy(tools) then [("tools", if tools.Arr? then tools else Arr([tools]))] else [])
  }

  /** The request `call_vllm` sends. */
  function VllmRequestFor(prompt: string, tools: Json, config: ModelConfig, temperature: Json, maxTokens: Json): HttpRequest {
    HttpRequest(config.baseUrl.GetOr("http://localhost:8000") + "/v1/chat/completions", [],
                Obj(ChatFields(config.modelName.GetOr("default"), prompt, tools, temperature, maxTokens)))
  }

  /**
    The key `call_openai_compatible` puts in its Authorization header: the
    configured one, else OPENAI_API_KEY, else `None`, which the f-string
    prints as "None".
  */
  function ApiKeyText(config: ModelConfig, env: Env): string {
    match config.apiKey
    case Some(k) => k
    case None => Getenv(env, "OPENAI_API_KEY", "None")
  }

  /** The request `call_openai_compatible` sends. */
  function OpenAIRequestFor(prompt: string, tools: Json, config: ModelConfig, temperature: Json, maxTokens: Json,
                            env: Env): HttpRequest
  {
    HttpRequest(config.baseUrl.GetOr("https://api.openai.com/v1") + "/chat/completions",
                [("Authorization", "Bearer " + ApiKeyText(config, env)), ("Content-Type", "application/json")],
                Obj(ChatFields(config.modelName.GetOr("gpt-3.5-turbo"), prompt, tools, temperature, maxTokens)))
  }

  /**
    What the Ollama payload holds: the model name, the prompt (with markup
    tools appended), `stream` false, the sampling options, `context` holding
    `json.dumps(tools)` exactly for truthy non-string tools, `raw` true exactly
    in raw mode, and no other key.
  */
  lemma {:induction false} OllamaPayloadEntries(prompt: string, tools: Json, config: ModelConfig, temperature: Json,
                                                maxTokens: Json, rt: Runtime)
    ensures var p := OllamaPayload(prompt, tools, config, temperature, maxTokens, rt);
            Get(p, "model") == Some(Str(config.modelName.GetOr("default")))
            && Get(p, "prompt") == Some(Str(if Truthy(tools) && tools.Str? then prompt + "\n\n" + tools.s else prompt))
            && Get(p, "stream") == Some(Bool(false))
            && Get(p, "options") == Some(Obj([("temperature", temperature), ("num_predict", maxTokens)]))
            && Get(p, "context") == (if Truthy(tools) && !tools.Str? then Some(Str(rt.dumps(tools))) else None)
            && Get(p, "raw") == (if config.useRawMode == Some(true) then Some(Bool(true)) else None)
            && Keys(p) <= {"model", "prompt", "stream", "options", "context", "raw"}
  {
    var p := OllamaPayload(prompt, tools, config, temperature, maxTokens, rt);
    GetAt(p, "model", 0);
    GetAt(p, "prompt", 1);
    GetAt(p, "stream", 2);
    GetAt(p, "options", 3);
    var hasContext := Truthy(tools) && !tools.Str?;
    if hasContext {
      GetAt(p, "context", 4);
    } else {
      GetAbsent(p, "context");
    }
    if config.useRawMode == Some(true) {
      GetAt(p, "raw", if hasContext then 5 else 4);
    } else {
      GetAbsent(p, "raw");
    }
    KeysOf(p);
  }

  /**
    What the chat payload holds: the model name, exactly one user message
    carrying the prompt, the sampling parameters, "tools" only when the tools
    are truthy (the list itself, or a one-element list around anything else),
    and no other key.
  */
  lemma {:induction false} ChatFieldsEntries(modelName: string, prompt: string, tools: Json, temperature: Json, maxTokens: Json)
    ensures var p := ChatFields(modelName, prompt, tools, temperature, maxTokens);
            Get(p, "model") == Some(Str(modelName))
            && Get(p, "messages") == Some(Arr([Obj([("role", Str("user")), ("content", Str(prompt))])]))
            && Get(p, "temperature") == Some(temperature)
            && Get(p, "max_tokens") == Some(maxTokens)
            && Get(p, "tools") == (if !Truthy(tools) then None else if tools.Arr? then Some(tools) else Some(Arr([tools])))
            && Keys(p) <= {"model", "messages", "temperature", "max_tokens", "tools"}
  {
    var p := ChatFields(modelName, prompt, tools, temperature, maxTokens);
    GetAt(p, "model", 0);
    GetAt(p, "messages", 1);
    GetAt(p, "temperature", 2);
    GetAt(p, "max_tokens", 3);
    if Truthy(tools) {
      GetAt(p, "tools", 4);
    } else {
      GetAbsent(p, "tools");
    }
    KeysOf(p);
  }

  /** The request of `call_ollama`, built as the source builds it: a dict display, then in-place updates. */
  method OllamaRequest(prompt: string, tools: Json, config: ModelConfig, temperature: Json, maxTokens: Json,
                       rt: Runtime)
    returns (req: HttpRequest)
    ensures req == OllamaRequestFor(prompt, tools, config, temperature, maxTokens, rt)
  {
    var baseUrl := config.baseUrl.GetOr("http://localhost:11434");
    var modelName := config.modelName.GetOr("default");
    var useRaw := config.useRawMode.GetOr(false);
    var url := baseUrl + "/api/generate";
    var options := Obj([("temperature", temperature), ("num_predict", maxTokens)]);
    var payload := [("model", Str(modelName)), ("prompt", Str(prompt)), ("stream", Bool(false)), ("options", options)];
    if Truthy(tools) {
      if tools.Str? {
        PutAt(payload, "prompt", Str(prompt + "\n\n" + tools.s), 1);
        payload := Put(payload, "prompt", Str(prompt + "\n\n" + tools.s));
      } else {
        GetAbsent(payload, "context");
        PutAppends(payload, "context", Str(rt.dumps(tools)));
        payload := Put(payload, "context", Str(rt.dumps(tools)));
      }
    }
    assert payload == [("model", Str(modelName)), ("prompt", Str(OllamaPrompt(prompt, tools))), ("stream", Bool(false)), ("options", options)]
                      + (if Truthy(tools) && !tools.Str? then [("context", Str(rt.dumps(tools)))] else []);
    ghost var beforeRaw := payload;
    if useRaw {
      GetAbsent(payload, "raw");
      PutAppends(payload, "raw", Bool(true));
      payload := Put(payload, "raw", Bool(true));
    }
    assert payload == beforeRaw + (if config.useRawMode == Some(true) then [("raw", Bool(true))] else []);
    req := HttpRequest(url, [], Obj(payload));
  }

  /** `call_ollama`: posts its request and normalises the answer; a transport failure is re-raised. */
  method CallOllama(prompt: string, tools: Json, config: ModelConfig, temperature: Json, maxTokens: Json,
                    rt: Runtime, post: Transport)
    returns (sent: HttpRequest, r: Result<Json, Error>)
    ensures sent == OllamaRequestFor(prompt, tools, config, temperature, maxTokens, rt)
    ensures r == match post(sent)
                 case Err(e) => Err(e)
                 case Ok(answer) => ParseFunctionCallResponse(answer, config, rt)
  {
    sent := OllamaRequest(prompt, tools, config, temperature, maxTokens, rt);
    var answer := post(sent);
    match answer {
      case Err(e) => r := Err(e);
      case Ok(result) => r := ParseFunctionCallResponse(result, config, rt);
    }
  }

  /** The body of `call_vllm` and `call_openai_compatible`: a dict display, then "tools" when truthy. */
  method ChatPayload(modelName: string, prompt: string, tools: Json, temperature: Json, maxTokens: Json)
    returns (payload: Json)
    ensures payload == Obj(ChatFields(modelName, prompt, tools, temperature, maxTokens))
  {
    var messages := Arr([Obj([("role", Str("user")), ("content", Str(prompt))])]);
    var fields := [("model", Str(modelName)), ("messages", messages), ("temperature", temperature), ("max_tokens", maxTokens)];
    if Truthy(tools) {
      var listed := if tools.Arr? then tools else Arr([tools]);
      GetAbsent(fields, "tools");
      PutAppends(fields, "tools", listed);
      fields := Put(fields, "tools", listed);
    }
    payload := Obj(fields);
  }

  /** `call_vllm`: posts the chat payload and returns the answer unchanged. */
  method CallVllm(prompt: string, tools: Json, config: ModelConfig, temperature: Json, maxTokens: Json,
                  post: Transport)
    returns (sent: HttpRequest, r: Result<Json, Error>)
    ensures sent == VllmRequestFor(prompt, tools, config, temperature, maxTokens)
    ensures r == post(sent)
  {
    var baseUrl := config.baseUrl.GetOr("http://localhost:8000");
    var modelName := config.modelName.GetOr("default");
    var url := baseUrl + "/v1/chat/completions";
    var payload := ChatPayload(modelName, prompt, tools, temperature, maxTokens);
    sent := HttpRequest(url, [], payload);
    r := post(sent);
  }

  /** `call_openai_compatible`: posts the chat payload with a bearer token and returns the answer unchanged. */
  method CallOpenAICompatible(prompt: string, tools: Json, config: ModelConfig, temperature: Json, maxTokens: Json,
                              env: Env, post: Transport)
    returns (sent: HttpRequest, r: Result<Json, Error>)
    ensures sent == OpenAIRequestFor(prompt, tools, config, temperature, maxTokens, env)
    ensures r == post(sent)
  {
    var baseUrl := config.baseUrl.GetOr("https://api.openai.com/v1");
    var modelName := config.modelName.GetOr("gpt-3.5-turbo");
    var apiKey := ApiKeyText(config, env);
    var url := baseUrl + "/chat/completions";
    var headers := [("Authorization", "Bearer " + apiKey), ("Content-Type", "application/json")];
    var payload := ChatPayload(modelName, prompt, tools, temperature, maxTokens);
    sent := HttpRequest(url, headers, payload);
    r := post(sent);
  }

  /**
    `call_model`: a missing configuration is the default one, a missing
    backend is "ollama"; an unknown backend fails before anything is sent
    (`sent` is `None`), each known one sends exactly its adapter's request.
  */
  method CallModel(prompt: string, tools: Json, modelConfig: Option<ModelConfig>, temperature: Json, maxTokens: Json,
                   env: Env, rt: Runtime, post: Transport)
    returns (sent: Option<HttpRequest>, r: Result<Json, Error>)
    ensures var config := modelConfig.GetOr(GetDefaultConfig(env));
            var backend := config.backend.GetOr("ollama");
            match ParseBackend(backend)
            case None => sent == None && r == Err(UnsupportedBackend(backend))
            case Some(Ollama) =>
              sent == Some(OllamaRequestFor(prompt, tools, config, temperature, maxTokens, rt))
              && r == (match post(sent.value)
                       case Err(e) => Err(e)
                       case Ok(answer) => ParseFunctionCallResponse(answer, config, rt))
            case Some(Vllm) =>
              sent == Some(VllmRequestFor(prompt, tools, config, temperature, maxTokens))
              && r == post(sent.value)
            case Some(OpenAI) =>
              sent == Some(OpenAIRequestFor(prompt, tools, config, temperature, maxTokens, env))
              && r == post(sent.value)
  {
    var config := if modelConfig.None? then GetDefaultConfig(env) else modelConfig.value;
    var backend := config.backend.GetOr("ollama");
    match ParseBackend(backend) {
      case Some(Ollama) =>
        var req;
        req, r := CallOllama(prompt, tools, config, temperature, maxTokens, rt, post);
        sent := Some(req);
      case Some(Vllm) =>
        var req;
        req, r := CallVllm(prompt, tools, config, temperature, maxTokens, post);
        sent := Some(req);
      case Some(OpenAI) =>
        var req;
        req, r := CallOpenAICompatible(prompt, tools, config, temperature, maxTokens, env, post);
        sent := Some(req);
      case None =>
        sent := None;
        r := Err(UnsupportedBackend(backend));
    }
  }

  // ---------------------------------------------------------------------
  // Normalising a backend answer
  // ---------------------------------------------------------------------

  /** The completion synthesised from an Ollama answer whose "response" is the string `text`. */
  function Completion(text: string, answer: Fields, config: ModelConfig, rt: Runtime): Json {
    var call := ExtractFunctionCall(text, rt);
    Obj([("id", Str("call_" + rt.hashText(text))),
         ("object", Str("chat.completion")),
         ("created", Get(answer, "created_at").GetOr(Int(0))),
         ("model", Str(config.modelName.GetOr("unknown"))),
         ("choices", Arr([Obj([("index", Int(0)),
                               ("message", Obj([("role", Str("assistant")), ("content", Str(text)), ("function_call", call)])),
                               ("finish_reason", Str(if Truthy(call) then "function_call" else "stop"))])])),
         ("usage", Obj([("prompt_tokens", Int(0)), ("completion_tokens", Int(0)), ("total_tokens", Int(0))]))])
  }

  /**
    `parse_function_call_response(response, config)`: an answer holding
    "choices", or holding neither "choices" nor "response", is returned as it
    is; one holding "response" becomes a synthesised completion. The `in`
    tests raise on a scalar answer, `.get` raises on a list or string answer,
    `hash` raises on a list or dict text and `re.search` on any other
    non-string text.
  */
  function ParseFunctionCallResponse(response: Json, config: ModelConfig, rt: Runtime): (r: Result<Json, Error>)
    ensures response.Obj? && "choices" in Keys(response.fields) ==> r == Ok(response)
    ensures response.Obj? && "choices" !in Keys(response.fields) && "response" !in Keys(response.fields)
            ==> r == Ok(response)
    ensures !(response.Obj? || response.Arr? || response.Str?) ==> r == Err(NotIterable(TypeName(response)))
    ensures response.Arr? || response.Str? ==>
              r == if In("choices", response) == Ok(false) && In("response", response) == Ok(true)
                   then Err(NoAttributeGet(TypeName(response)))
                   else Ok(response)
    ensures response.Obj? && "choices" !in Keys(response.fields) && "response" in Keys(response.fields)
            ==> var text := Get(response.fields, "response").value;
                r == if text.Arr? || text.Obj? then Err(Unhashable(TypeName(text)))
                     else if !text.Str? then Err(NotAString(TypeName(text)))
                     else Ok(Completion(text.s, response.fields, config, rt))
  {
    match In("choices", response)
    case Err(e) => Err(e)
    case Ok(hasChoices) =>
      if hasChoices then Ok(response)
      else
        match In("response", response)
        case Err(e) => Err(e)
        case Ok(hasResponse) =>
          if !hasResponse then Ok(response)
          else if !response.Obj? then Err(NoAttributeGet(TypeName(response)))
          else
            var text := Get(response.fields, "response").GetOr(Str(""));
            if text.Arr? || text.Obj? then Err(Unhashable(TypeName(text)))
            else if !text.Str? then Err(NotAString(TypeName(text)))
            else Ok(Completion(text.s, response.fields, config, rt))
  }

  /**
    The synthesised completion has one choice, with index 0, the assistant
    role, the answer text as content and the extracted call; its finish
    reason is "function_call" exactly when that call is truthy, its usage
    counts are all zero, and "created" and "model" fall back to 0 and
    "unknown".
  */
  lemma CompletionShape(text: string, answer: Fields, config: ModelConfig, rt: Runtime)
    ensures var c := Completion(text, answer, config, rt);
            var call := ExtractFunctionCall(text, rt);
            c.Obj?
            && Get(c.fields, "id") == Some(Str("call_" + rt.hashText(text)))
            && Get(c.fields, "object") == Some(Str("chat.completion"))
            && Get(c.fields, "created") == Some(Get(answer, "created_at").GetOr(Int(0)))
            && Get(c.fields, "model") == Some(Str(config.modelName.GetOr("unknown")))
            && Get(c.fields, "usage") == Some(Obj([("prompt_tokens", Int(0)), ("completion_tokens", Int(0)), ("total_tokens", Int(0))]))
            && Get(c.fields, "choices").Some? && Get(c.fields, "choices").value.Arr?
            && |Get(c.fields, "choices").value.items| == 1
            && var choice := Get(c.fields, "choices").value.items[0];
               choice.Obj?
               && Get(choice.fields, "index") == Some(Int(0))
               && Get(choice.fields, "message") == Some(Obj([("role", Str("assistant")), ("content", Str(text)), ("function_call", call)]))
               && Get(choice.fields, "finish_reason") == Some(Str(if Truthy(call) then "function_call" else "stop"))
  {
    var c := Completion(text, answer, config, rt);
    GetAt(c.fields, "id", 0);
    GetAt(c.fields, "object", 1);
    GetAt(c.fields, "created", 2);
    GetAt(c.fields, "model", 3);
    GetAt(c.fields, "choices", 4);
    GetAt(c.fields, "usage", 5);
    var choice := c.fields[4].1.items[0];
    GetAt(choice.fields, "index", 0);
    GetAt(choice.fields, "message", 1);
    GetAt(choice.fields, "finish_reason", 2);
  }

  // ---------------------------------------------------------------------
  // Extracting a function call from free text
  // ---------------------------------------------------------------------

  /** The quoted key the pattern looks for. */
  const NameKey := "\"name\""

  /**
    `\{[^}]*"name"[^}]*\}` matches `text[i..j + 1]`: a `{` at `i`, the first
    `}` after it at `j`, and `"name"` between them.
  */
  predicate MatchAt(text: string, i: nat, j: nat) {
    i < j < |text| && text[i] == '{' && text[j] == '}'
    && (forall m :: i < m < j ==> text[m] != '}')
    && Contains(text[i + 1..j], NameKey)
  }

  /** The first `}` at or after `k`. */
  function FirstClose(text: string, k: nat): (r: Option<nat>)
    ensures r.Some? ==> k <= r.value < |text| && text[r.value] == '}'
                        && forall m :: k <= m < r.value ==> text[m] != '}'
    ensures r.None? ==> forall m :: k <= m < |text| ==> text[m] != '}'
    decreases |text| - k
  {
    if k >= |text| then None
    else if text[k] == '}' then Some(k)
    else FirstClose(text, k + 1)
  }

  /**
    `re.search` of the pattern from position `from` on: the leftmost start at
    which it matches, with its end.
  */
  function Search(text: string, from: nat): (r: Option<(nat, nat)>)
    ensures r.Some? ==> from <= r.value.0 && MatchAt(text, r.value.0, r.value.1)
    ensures r.Some? ==> forall i, j :: from <= i < r.value.0 ==> !MatchAt(text, i, j)
    ensures r.None? ==> forall i, j :: from <= i ==> !MatchAt(text, i, j)
    decreases |text| - from
  {
    if from >= |text| then None
    else if text[from] != '{' then Search(text, from + 1)
    else
      match FirstClose(text, from + 1)
      case None => Search(text, from + 1)
      case Some(j) =>
        if Contains(text[from + 1..j], NameKey) then Some((from, j))
        else Search(text, from + 1)
  }

  /**
    `extract_function_call(text)`: `json.loads` of the leftmost matching span;
    `None` when nothing matches or when that span does not parse.
  */
  function ExtractFunctionCall(text: string, rt: Runtime): (r: Json)
    ensures (forall i: nat, j: nat :: !MatchAt(text, i, j)) ==> r == Null
    ensures r == Null
            || exists i: nat, j: nat :: MatchAt(text, i, j) && rt.loads(text[i..j + 1]) == Some(r)
                                        && forall i': nat, j': nat :: i' < i ==> !MatchAt(text, i', j')
  {
    match Search(text, 0)
    case None => Null
    case Some((i, j)) => rt.loads(text[i..j + 1]).GetOr(Null)
  }

  /** A start position has at most one matching span. */
  lemma MatchEndUnique(text: string, i: nat, j1: nat, j2: nat)
    requires MatchAt(text, i, j1) && MatchAt(text, i, j2)
    ensures j1 == j2
  {
    assert text[j1] == '}' && text[j2] == '}';
  }

  /**
    The extractor decides on the leftmost matching span alone: its parse is
    the result, and a span that does not parse gives no call even when a
    later span would.
  */
  lemma ExtractUsesLeftmostSpan(text: string, i: nat, j: nat, rt: Runtime)
    requires MatchAt(text, i, j)
    requires forall i': nat, j': nat :: i' < i ==> !MatchAt(text, i', j')
    ensures ExtractFunctionCall(text, rt) == rt.loads(text[i..j + 1]).GetOr(Null)
    ensures rt.loads(text[i..j + 1]).None? ==> ExtractFunctionCall(text, rt) == Null
  {
    var s := Search(text, 0);
    assert s.Some?;
    var (i2, j2) := s.value;
    assert i2 == i;
    MatchEndUnique(text, i, j, j2);
  }

  /** Without a matching span there is no call. */
  lemma ExtractWithoutSpan(text: string, rt: Runtime)
    requires forall i, j :: !MatchAt(text, i, j)
    ensures ExtractFunctionCall(text, rt) == Null
  {
  }

  /** Plain text holds no call. */
  lemma ExtractFromPlainText(rt: Runtime)
    ensures ExtractFunctionCall("no function call here", rt) == Null
  {
    var text := "no function call here";
    forall i: nat, j: nat
      ensures !MatchAt(text, i, j)
    {
      if i < |text| {
        assert text[i] != '{';
      }
    }
    ExtractWithoutSpan(text, rt);
  }

  /**
    Text with no `{` before an object whose body has no `}` and mentions
    "name": that object is the span parsed, whatever follows it.
  */
  lemma ExtractFirstObject(prefix: string, body: string, suffix: string, rt: Runtime)
    requires '{' !in prefix
    requires '}' !in body && Contains(body, NameKey)
    ensures ExtractFunctionCall(prefix + "{" + body + "}" + suffix, rt) == rt.loads("{" + body + "}").GetOr(Null)
  {
    var text := prefix + "{" + body + "}" + suffix;
    var i, j := |prefix|, |prefix| + 1 + |body|;
    assert text[i + 1..j] == body;
    forall m | i < m < j
      ensures text[m] != '}'
    {
      assert text[m] == body[m - i - 1];
    }
    assert MatchAt(text, i, j);
    forall i': nat, j': nat | i' < i
      ensures !MatchAt(text, i', j')
    {
      assert text[i'] == prefix[i'];
    }
    ExtractUsesLeftmostSpan(text, i, j, rt);
    assert text[i..j + 1] == "{" + body + "}";
  }

  /** The call in `leading text {"name": "lookup", "arg": 1} trailing` is the parse of the braces' span. */
  lemma ExtractEmbeddedCall(rt: Runtime)
    ensures ExtractFunctionCall("leading text " + "{" + "\"name\": \"lookup\", \"arg\": 1" + "}" + " trailing", rt)
            == rt.loads("{" + "\"name\": \"lookup\", \"arg\": 1" + "}").GetOr(Null)
  {
    LookupBodyNamesACall();
    LookupBodyHasNoClose();
    assert '{' !in "leading text ";
    ExtractFirstObject("leading text ", "\"name\": \"lookup\", \"arg\": 1", " trailing", rt);
  }

  lemma LookupBodyNamesACall()
    ensures Contains("\"name\": \"lookup\", \"arg\": 1", NameKey)
  {
    var body := "\"name\": \"lookup\", \"arg\": 1";
    assert body == NameKey + ": \"lookup\", \"arg\": 1";
    assert OccursAt(body, NameKey, 0);
  }

  lemma LookupBodyHasNoClose()
    ensures '}' !in "\"name\": \"lookup\", \"arg\": 1"
  {
  }

  /**
    A nested object is cut at its first closing brace: for `{"name":{}}` the
    span handed to `json.loads` is `{"name":{}`, which ends inside the outer
    object.
  */
  lemma ExtractTruncatesNestedObject(rt: Runtime)
    ensures ExtractFunctionCall("{" + "\"name\":{" + "}" + "}", rt) == rt.loads("{" + "\"name\":{" + "}").GetOr(Null)
  {
    var body := "\"name\":{";
    assert body == NameKey + ":{";
    assert OccursAt(body, NameKey, 0);
    ExtractFirstObject("", body, "}", rt);
    assert "" + "{" + body + "}" + "}" == "{" + body + "}" + "}";
  }

  /**
    The answer `{"response": "hello", "created_at": 5}` becomes one choice
    with content "hello", no call and finish reason "stop", created 5, and
    zero usage.
  */
  lemma NormaliseHello(config: ModelConfig, rt: Runtime)
    ensures var r := ParseFunctionCallResponse(Obj([("response", Str("hello")), ("created_at", Int(5))]), config, rt);
            r.Ok? && r.value.Obj?
            && Get(r.value.fields, "created") == Some(Int(5))
            && Get(r.value.fields, "usage") == Some(Obj([("prompt_tokens", Int(0)), ("completion_tokens", Int(0)), ("total_tokens", Int(0))]))
            && Get(r.value.fields, "choices").Some? && Get(r.value.fields, "choices").value.Arr?
            && |Get(r.value.fields, "choices").value.items| == 1
            && var choice := Get(r.value.fields, "choices").value.items[0];
               choice.Obj?
               && Get(choice.fields, "message") == Some(Obj([("role", Str("assistant")), ("content", Str("hello")), ("function_call", Null)]))
               && Get(choice.fields, "finish_reason") == Some(Str("stop"))
  {
    var answer := [("response", Str("hello")), ("created_at", Int(5))];
    GetAt(answer, "response", 0);
    GetAt(answer, "created_at", 1);
    GetAbsent(answer, "choices");
    ExtractFromPlainTextHello(rt);
    CompletionShape("hello", answer, config, rt);
  }

  lemma ExtractFromPlainTextHello(rt: Runtime)
    ensures ExtractFunctionCall("hello", rt) == Null
  {
    forall i: nat, j: nat
      ensures !MatchAt("hello", i, j)
    {
      if i < 5 {
        assert "hello"[i] != '{';
      }
    }
    ExtractWithoutSpan("hello", rt);
  }
}
