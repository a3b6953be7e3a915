/**
  The request side of the HTTP front door (src/server.py): the model
  configuration for a request, the prompt built from the chat messages, and
  the pipeline of `chat_completions` that formats the tools, builds the
  prompt, calls the model and turns any failure into a status-500 error.
*/
module Server {
  import opened Wrappers
  import opened JsonModel
  import opened Text
  import opened Host
  import opened Formatting
  import opened Engine

  datatype ChatMessage = ChatMessage(role: string, content: string)

  /** The request body, after validation; temperature and max_tokens are passed on as they came. */
  datatype ChatCompletionRequest = ChatCompletionRequest(
    model: Option<string>,
    messages: seq<ChatMessage>,
    tools: Option<seq<Json>>,
    temperature: Json,
    maxTokens: Json)

  /** The arguments `chat_completions` hands to `call_model`. */
  datatype ModelCall = ModelCall(prompt: string, tools: Json, config: ModelConfig, temperature: Json, maxTokens: Json)

  /** An `HTTPException`. */
  datatype HttpError = HttpError(statusCode: int, detail: string)

  /**
    `get_model_config(model_name)`: the default configuration, except that a
    non-empty requested model name replaces the model name.
  */
  function GetModelConfig(modelName: Option<string>, env: Env): (r: ModelConfig)
    ensures modelName == None || modelName == Some("") ==> r == GetDefaultConfig(env)
    ensures modelName.Some? && modelName.value != "" ==> r == GetDefaultConfig(env).(modelName := modelName)
  {
    ModelConfig(
      Some(Getenv(env, "MODEL_BACKEND", "ollama")),
      Some(if modelName.Some? && modelName.value != "" then modelName.value else Getenv(env, "MODEL_NAME", "default")),
      Some(Getenv(env, "MODEL_BASE_URL", "http://localhost:11434")),
      Some(Getenv(env, "TOOL_FORMAT", "json")),
      Some(Lower(Getenv(env, "USE_RAW_MODE", "false")) == "true"),
      None)
  }

  /** The line one message contributes to the prompt. */
  function Line(m: ChatMessage): string {
    m.role + ": " + m.content
  }

  /** The prompt: the messages' lines, each after the previous one and a newline. */
  function Prompt(messages: seq<ChatMessage>): string {
    if |messages| == 0 then ""
    else if |messages| == 1 then Line(messages[0])
    else Prompt(messages[..|messages| - 1]) + "\n" + Line(messages[|messages| - 1])
  }

  /** `build_prompt_from_messages`: collects the lines in a loop, then joins them with newlines. */
  method BuildPromptFromMessages(messages: seq<ChatMessage>) returns (prompt: string)
    ensures prompt == Prompt(messages)
  {
    var parts: seq<string> := [];
    for i := 0 to |messages|
      invariant |parts| == i
      invariant i > 0 ==> Join("\n", parts) == Prompt(messages[..i])
      invariant i == 0 ==> parts == []
    {
      var line := messages[i].role + ": " + messages[i].content;
      if i > 0 {
        JoinSnoc("\n", parts, line);
      }
      assert messages[..i + 1][..i] == messages[..i];
      parts := parts + [line];
    }
    assert messages[..|messages|] == messages;
    prompt := Join("\n", parts);
  }

  /** The prompt of no messages is empty; of one message, its line alone, without newline. */
  lemma PromptOfFewMessages(m: ChatMessage)
    ensures Prompt([]) == ""
    ensures Prompt([m]) == m.role + ": " + m.content
  {
  }

  /** The prompt of two message lists is their prompts with one newline between them. */
  lemma {:induction false} PromptAppend(a: seq<ChatMessage>, b: seq<ChatMessage>)
    requires |a| > 0 && |b| > 0
    ensures Prompt(a + b) == Prompt(a) + "\n" + Prompt(b)
    decreases |b|
  {
    var ab := a + b;
    assert ab[..|ab| - 1] == a + b[..|b| - 1];
    assert ab[|ab| - 1] == b[|b| - 1];
    if |b| == 1 {
      assert a + b[..0] == a;
    } else {
      PromptAppend(a, b[..|b| - 1]);
    }
  }

  /** The prompt lists the messages in order: every message's line is in it. */
  lemma {:induction false} PromptHasEveryLine(messages: seq<ChatMessage>, i: nat)
    requires i < |messages|
    ensures Contains(Prompt(messages), Line(messages[i]))
    decreases |messages|
  {
    var n := |messages|;
    if n == 1 {
      assert OccursAt(Prompt(messages), Line(messages[i]), 0);
    } else if i == n - 1 {
      var p := Prompt(messages);
      var k := |Prompt(messages[..n - 1])| + 1;
      assert p[k..k + |Line(messages[i])|] == Line(messages[i]);
      assert OccursAt(p, Line(messages[i]), k);
    } else {
      var init := messages[..n - 1];
      assert init[i] == messages[i];
      PromptHasEveryLine(init, i);
      var k: nat :| k <= |Prompt(init)| - |Line(messages[i])| && OccursAt(Prompt(init), Line(messages[i]), k);
      var p := Prompt(messages);
      assert p[..|Prompt(init)|] == Prompt(init);
      assert p[k..k + |Line(messages[i])|] == Prompt(init)[k..k + |Line(messages[i])|];
      assert OccursAt(p, Line(messages[i]), k);
    }
  }

  /** The tools `chat_completions` passes on: formatted when present and non-empty, `None` otherwise. */
  function ToolsForCall(request: ChatCompletionRequest, config: ModelConfig, rt: Runtime): Result<Json, Error> {
    if request.tools.Some? && |request.tools.value| > 0
    then FormatToolsForModel(request.tools.value, config.toolFormat.GetOr("json"), rt)
    else Ok(Null)
  }

  /**
    Formatted tools are never falsy: a non-empty list stays a non-empty list
    or becomes a one-key envelope or a `<tools>` document, so every backend
    adapter sees them.
  */
  lemma FormattedToolsAreTruthy(tools: seq<Json>, formatType: string, rt: Runtime)
    requires |tools| > 0
    requires FormatToolsForModel(tools, formatType, rt).Ok?
    ensures Truthy(FormatToolsForModel(tools, formatType, rt).value)
  {
    if formatType == "xml" {
      XmlIsWrapped(tools, rt);
    }
  }

  /**
    `chat_completions`: the configuration for the requested model, the tools
    formatted with the configured format (default "json") only when present
    and non-empty, the prompt from the messages, then one model call; a
    failure of the formatting or of the call becomes a status-500 error with
    the exception's message, and a formatting failure calls no model.
  */
  method ChatCompletions(request: ChatCompletionRequest, env: Env, rt: Runtime, callModel: ModelCall -> Result<Json, Error>)
    returns (call: Option<ModelCall>, r: Result<Json, HttpError>)
    ensures var config := GetModelConfig(request.model, env);
            match ToolsForCall(request, config, rt)
            case Err(e) => call == None && r == Err(HttpError(500, Message(e)))
            case Ok(tools) =>
              call == Some(ModelCall(Prompt(request.messages), tools, config, request.temperature, request.maxTokens))
              && r == match callModel(call.value)
                      case Ok(response) => Ok(response)
                      case Err(e) => Err(HttpError(500, Message(e)))
  {
    var config := GetModelConfig(request.model, env);
    var formattedTools := Null;
    if request.tools.Some? && |request.tools.value| > 0 {
      var formatType := config.toolFormat.GetOr("json");
      var formatted := FormatToolsForModel(request.tools.value, formatType, rt);
      if formatted.Err? {
        return None, Err(HttpError(500, Message(formatted.error)));
      }
      formattedTools := formatted.value;
    }
    var prompt := BuildPromptFromMessages(request.messages);
    var modelCall := ModelCall(prompt, formattedTools, config, request.temperature, request.maxTokens);
    call := Some(modelCall);
    var response := callModel(modelCall);
    match response {
      case Ok(x) => r := Ok(x);
      case Err(e) => r := Err(HttpError(500, Message(e)));
    }
  }
}
