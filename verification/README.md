# xlam-server gateway core, modelled in Dafny

This project models the core of a small function-calling gateway. The gateway
accepts OpenAI-style chat requests that carry tool definitions. It renders the
tools in the format the configured model expects, sends one request to a
model backend (Ollama, vLLM or an OpenAI-compatible API), and returns an
OpenAI-shaped completion. The model covers four parts of the source:

- **Tool formatter** (`formatting.dfy`, module `Formatting`). The tool list is
  returned unchanged, wrapped in a `{"tools": ...}` envelope, or rendered as
  an XML-like `<tools>` document. The document is built by a loop that
  appends parts, as in the source, and is proved equal to a recursive
  specification. That specification has lemmas for its shape, per-tool
  blocks, defaults, errors and the absence of escaping.
- **Engine** (`engine.dfy`, module `Engine`):
  - the default configuration read from an environment map;
  - the dispatch on the backend name;
  - the request each of the three adapters builds: a dict display, then
    in-place updates, proved equal to an exact request function whose
    entries are stated by lemmas;
  - the normaliser that passes answers through or synthesises a completion;
  - the leftmost-match scan that extracts a function call from free text.
- **Function registry** (`registry.dfy`, class `Registry.FunctionRegistry`).
  The two dicts are fields that the methods update in place. A `seq` of
  names records the dicts' insertion order.
- **Request side of the server** (`server.dfy`, module `Server`):
  - the per-request configuration;
  - the prompt built from the chat messages by a loop and a join;
  - the `chat_completions` pipeline: format the tools, build the prompt, call
    the model once, and turn any failure into a status-500 error.

Supporting modules:

- `wrappers.dfy` has `Option` and `Result`.
- `json.dfy` has the JSON-like `Json` value and an insertion-ordered dict with
  `Get`/`Put`.
- `text.dfy` has `"".join`, `sep.join`, `str.lower` and substring `in`.
- `host.dfy` covers what comes from the Python runtime:
  - `json.dumps`, `json.loads`, `hash` and `str` are fields of a `Runtime`
    record, so every property holds for every implementation of them;
  - the exceptions the core raises are `Error` kinds, each with the message
    `str(e)` gives.

The HTTP round trip is the parameter `post: Transport`. Each adapter states
exactly which request it sends and what it does with the answer.

Where the descriptive documentation and the code differ, the model follows the code:

- Tool names and descriptions are inserted into the markup verbatim. A quote
  in a name closes the attribute early (`QuoteInNameIsNotEscaped`). The
  documentation asks for escaping.
- `xml_tools_to_json` is a stub returning `[]`, so the markup does not round-trip.
- The finish reason is "function_call" when the extracted value is *truthy*,
  not when extraction merely succeeded.
- The extractor stops at the first `}` after the `{`, so a nested object is
  cut short before it is parsed (`ExtractTruncatesNestedObject`).
- The OpenAI adapter's bearer token is the literal text "None" when neither
  the configuration nor `OPENAI_API_KEY` supplies a key.
- `raw` is set to `true` when raw mode is on. The setting is not passed
  through verbatim.

## Model

| member | source | states |
|---|---|---|
| Formatting.FormatToolsForModel | src/formatting.py:10-32 | "function_calling" yields `{"tools": tools}`; every other format except "xml" (the default "json" and unknown strings too) yields the list unchanged; "xml" yields the `<tools>` document as a string, or the error rendering raised |
| Formatting.JsonToolsToXml | src/formatting.py:35-66 | the loop that appends parts tool by tool and joins them returns exactly the specified document, or the error of the first tool that is not a dict or whose "function" is not a dict |
| Formatting.FirstErrorPropagates | src/formatting.py:49-53 | once a prefix of the tools fails to render, the whole list fails with that same error |
| Formatting.PartsAppend | src/formatting.py:49-63 | the parts of two concatenated tool lists are the parts of the first followed by those of the second, and the first error wins |
| Formatting.BlockTexts | src/formatting.py:55-63 | one block text per tool, in input order, each the join of that tool's parts |
| Formatting.XmlHasOneBlockPerTool | src/formatting.py:47-66 | when every tool renders, the document is `<tools>`, then exactly one block per input tool in input order, then `</tools>` |
| Formatting.XmlFailsAtFirstBadTool | src/formatting.py:49-53 | the first tool that does not render decides the error of the whole document |
| Formatting.XmlIsWrapped | src/formatting.py:47-66 | every document opens with `<tools>` and closes with `</tools>`, around the joined parts |
| Formatting.XmlOfNoTools | src/formatting.py:47-66 | the empty tool list renders exactly as `<tools></tools>` |
| Formatting.ToolBlockVerbatim | src/formatting.py:50-63 | a tool renders its name and description verbatim (absent ones as empty), and a `<parameters>` element holding `json.dumps(parameters)` exactly when the parameters are truthy |
| Formatting.BlockWithoutFunctionKey | src/formatting.py:50-53 | a tool without a "function" key still yields a block with empty name and description and no parameters element |
| Formatting.QuoteInNameIsNotEscaped | src/formatting.py:55-56 | the name `a'b` appears unescaped inside the `name='...'` attribute |
| Formatting.XmlToolsToJson | src/formatting.py:69-81 | the reverse conversion returns the empty list for every input |
| Formatting.XmlRoundTripLosesTools | src/formatting.py:69-81 | converting the document of a non-empty tool list back never gives that list |
| Engine.RawModeFlag | src/engine.py:246 | raw mode is on exactly when USE_RAW_MODE spells "true" in any case mix; it is off when the variable is unset |
| Engine.LowerIsTrue | src/engine.py:246 | lower-casing gives "true" exactly for the case variants of "true" |
| Engine.GetDefaultConfig | src/engine.py:239-247 | every key except "api_key" is set; a set MODEL_BACKEND, MODEL_NAME, MODEL_BASE_URL or TOOL_FORMAT is taken as it is, and unset ones give "ollama", "default", "http://localhost:11434" and "json"; raw mode follows USE_RAW_MODE |
| Engine.ParseBackend | src/engine.py:44-53 | exactly "ollama", "vllm" and "openai" select a backend, each the one of that name; anything else is the unsupported-backend branch |
| Engine.ParseBackendName | src/engine.py:46-51 | every backend is selected by its own name |
| Engine.OllamaPayloadEntries | src/engine.py:64-90 | the Ollama payload holds the model name (default "default"); the prompt with markup tools appended after a blank line; `stream` false; the options temperature and num_predict; `context` = `json.dumps(tools)` exactly for truthy non-string tools; `raw` true exactly in raw mode; and no other key |
| Engine.ChatFieldsEntries | src/engine.py:113-128 | the chat payload holds the model name, exactly one user message carrying the prompt, temperature and max_tokens, "tools" only for truthy tools (the list itself, or a one-element list around anything else), and no other key |
| Engine.OllamaRequest | src/engine.py:64-90 | the dict display followed by in-place prompt/context/raw updates builds exactly the specified request, sent to `base_url + "/api/generate"` (default "http://localhost:11434") |
| Engine.CallOllama | src/engine.py:56-102 | sends exactly the Ollama request, re-raises a transport failure, and otherwise returns the normalised answer |
| Engine.ChatPayload | src/engine.py:118-128 | the dict display followed by the conditional "tools" update builds exactly the specified chat payload |
| Engine.CallVllm | src/engine.py:105-137 | sends the chat payload to `base_url + "/v1/chat/completions"` (default "http://localhost:8000") without headers and returns the answer unchanged |
| Engine.CallOpenAICompatible | src/engine.py:140-178 | sends the chat payload (model default "gpt-3.5-turbo") to `base_url + "/chat/completions"` (default "https://api.openai.com/v1") with `Authorization: Bearer <key>` (key from the config, else OPENAI_API_KEY) and a JSON content type, and returns the answer unchanged |
| Engine.CallModel | src/engine.py:15-53 | a missing config is the default one and a missing backend is "ollama"; an unsupported backend fails with "Unsupported backend: ..." and sends nothing; each supported backend sends exactly its adapter's request and returns what that adapter returns |
| Engine.ParseFunctionCallResponse | src/engine.py:181-216 | a dict with "choices", or with neither "choices" nor "response", is returned unchanged; a dict with "response" becomes the synthesised completion, or the TypeError that `hash` or `re.search` raise on a non-string text; a list or string answer fails `.get` exactly when it contains "response" but not "choices"; a scalar answer fails the `in` test |
| Engine.CompletionShape | src/engine.py:192-214 | the synthesised completion has id "call_" + hash, object "chat.completion", created = created_at or 0, model = model_name or "unknown", zero usage, and exactly one choice with index 0, the assistant role, the text as content and the extracted call; the finish reason is "function_call" exactly when that call is truthy, else "stop" |
| Engine.NormaliseHello | src/engine.py:192-214 | `{"response": "hello", "created_at": 5}` gives one choice with content "hello", no call, finish reason "stop", created 5 and zero usage |
| Engine.FirstClose | src/engine.py:229 | the position found is the first `}` at or after the start; when none is found, there is no `}` from there on |
| Engine.Search | src/engine.py:229 | a found span is a match (a `{`, the first `}` after it, `"name"` between), no match starts further left, and no result means no match at all |
| Engine.ExtractFunctionCall | src/engine.py:219-236 | without a matching span the result is None; otherwise the result is None or the parse of a matching span with no match starting further left (the leftmost one, by ExtractUsesLeftmostSpan) |
| Engine.MatchEndUnique | src/engine.py:229 | a start position has at most one matching span |
| Engine.ExtractUsesLeftmostSpan | src/engine.py:229-236 | the result is the parse of the leftmost matching span; when that span does not parse, the result is None even if a later span would parse |
| Engine.ExtractWithoutSpan | src/engine.py:229-236 | without a matching span the result is None |
| Engine.ExtractFromPlainText | src/engine.py:229-236 | text without braces yields None |
| Engine.ExtractFirstObject | src/engine.py:229-232 | after a prefix without `{`, an object whose body has no `}` and contains `"name"` is the span parsed, whatever follows |
| Engine.ExtractEmbeddedCall | src/engine.py:229-232 | in `leading text {"name": "lookup", "arg": 1} trailing` the braces' span is parsed |
| Engine.ExtractTruncatesNestedObject | src/engine.py:229-232 | for `{"name":{}}` the span parsed is `{"name":{}`, cut at the inner closing brace |
| Host.In | src/engine.py:188-192 | `key in d` on a dict is key membership, and `in` fails exactly on values that are not a dict, list or string |
| Registry.FunctionRegistry.constructor | src/function_registry.py:15-17 | a new registry has no definitions, no handlers and an empty order |
| Registry.FunctionRegistry.RegisterFunction | src/function_registry.py:19-44 | the definition under the name becomes {name, description, parameters} and no other definition changes; a new name goes to the end of the order, and re-registering keeps one entry in its place; the handler is stored only when one is given, so re-registering without one keeps the old handler; afterwards `get_function(name)` is {name, description, parameters} and `get_function` of every other name is unchanged; the registry invariant is preserved |
| Registry.FunctionRegistry.GetFunction | src/function_registry.py:46-48 | a definition is returned exactly for a registered name; it is the stored definition, and it carries that name |
| Registry.FunctionRegistry.ListFunctions | src/function_registry.py:50-52 | one definition per distinct registered name, in first-registration order |
| Registry.FunctionRegistry.ExecuteFunction | src/function_registry.py:54-77 | an unregistered name fails with "Function not found" whatever the arguments; a stored handler is called with the arguments; a name without handler yields {function, arguments, status: "registered_but_no_handler"} and calls nothing |
| Registry.FunctionRegistry.GetToolsDefinition | src/function_registry.py:79-96 | the loop builds one `{"type": "function", "function": {...}}` entry per listed definition, same length and same order as `list_functions` |
| Registry.ToolEntryRendersAsXml | src/function_registry.py:86-96 | a registry tool entry renders in the markup format with the registered name and description verbatim, and a parameters element exactly when the parameters are truthy |
| Server.GetModelConfig | src/server.py:125-139 | the default configuration, except that a non-empty requested model name replaces the model name; a missing or empty name leaves MODEL_NAME or "default" |
| Server.BuildPromptFromMessages | src/server.py:142-147 | the loop and join return the specified prompt: the `role: content` lines in message order, newline-separated, with no trailing newline |
| Server.PromptOfFewMessages | src/server.py:142-147 | no messages give "", and one message gives exactly `role + ": " + content` |
| Server.PromptAppend | src/server.py:147 | the prompt of two non-empty message lists is their prompts with one newline between |
| Server.PromptHasEveryLine | src/server.py:142-147 | every message's line occurs in the prompt |
| Server.FormattedToolsAreTruthy | src/server.py:101-104 | a formatted non-empty tool list is never falsy, so a backend adapter always sees it |
| Server.ChatCompletions | src/server.py:96-122 | tools are formatted with the configured format (default "json") only when present and non-empty, otherwise the model gets None; the model is called once, with the prompt built from the messages; a formatting or call failure becomes a status-500 error with the exception's message, and a formatting failure calls no model |

## Left out

- HTTP I/O: `httpx.post`, timeouts, `raise_for_status` and `response.json()` are the single `post` parameter. Its `Err` result stands for any exception they raise. Logging is not modelled.
- The FastAPI application, CORS, the health, readiness and liveness routes, the `/v1/functions` route, the response model and `uvicorn` are not modelled. They are framework wiring with no logic of their own.
- Server.ChatCompletions: `call_model` is a parameter, so the pipeline is stated for every implementation of it. `Engine.CallModel` models the engine's own implementation.
- `src/functions/mcp_configuration.py` is not part of this model. Its handlers only forward calls to a remote server.
- The tests are not part of this model. They exercise the HTTP routes against a live model.
- `json.dumps`, `json.loads`, `hash()` and `str()` of a non-string are fields of `Host.Runtime` and are not interpreted. No JSON text is modelled.
- `temperature` and `max_tokens` are passed through as `Json` values. Validation of the request body is not modelled, including the defaults 0.7 and 1000 that the request class supplies.
- Registry handlers are values of type `Fields -> Result<Json, Error>`. Their bodies are not modelled. A Python handler is always truthy, so "a handler was given" is `Option.Some`.
- Configuration dict values are typed: strings, and a bool for `use_raw_mode`. A configuration holding values of other types is not modelled.
- Text.Lower maps ASCII letters only. `USE_RAW_MODE` is still compared correctly, because no other character lower-cases to a letter of "true".
- Engine.ParseFunctionCallResponse: the exception messages follow CPython 3.11 and later. Older versions leave the type name out of the `re.search` TypeError.
- Registry.FunctionRegistry.ListFunctions: definitions are returned as values. The aliasing of the returned dicts with the registry's own dicts is not modelled.
- The module-level global registry instance is not modelled.
