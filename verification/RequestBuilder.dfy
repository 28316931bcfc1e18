// build_converse_request: an Anthropic request into a Bedrock Converse request.
module RequestBuilder {
  import opened Wrappers
  import opened JsonValues
  import opened SchemaNormalizer

  // The failures of a build: the builder's own, and a Python error on a value of the wrong type.
  datatype BuildError = InvalidRole | InvalidContent | StructuredOutputNotSupported | TypeFault

  // str() and int() on JSON values that are not strings, respectively not plain integers.
  datatype Python = Python(str: Json -> string, int_: Json -> Option<int>) {
    function Str(j: Json): string { if j.Str? then j.s else str(j) }
  }

  // No other JSON value prints as a message role.
  ghost predicate PrintsPlainly(py: Python) {
    forall j: Json | !j.Str? :: py.str(j) !in SUPPORTED_MESSAGE_ROLES
  }

  lemma SomePythonPrintsPlainly() returns (py: Python)
    ensures PrintsPlainly(py)
  {
    py := Python(_ => "", _ => None);
  }

  const SUPPORTED_MESSAGE_ROLES: set<string> := {"user", "assistant"}
  const MIN_REASONING_BUDGET_TOKENS := 1024
  const REASONING_BUDGETS: map<string, int> := map["low" := 1024, "medium" := 4096, "high" := 8192]

  datatype ResultBlock = ResultText(text: string) | ResultJson(json: Json)

  // A content block of the Converse request.
  datatype OutBlock =
    | OutText(text: string)
    | OutToolUse(id: string, name: string, input: Json)
    | OutToolResult(toolUseId: string, isError: bool, content: seq<ResultBlock>)
    | OutMedia(kind: string, fields: map<string, Json>)
    | OutReasoning(text: string, signature: Option<Json>)

  datatype OutMessage = OutMessage(role: string, content: seq<OutBlock>)

  function GetOr(j: Json, key: string, default: Json): Json { j.Get(key).GetOr(default) }

  // _coerce_blocks, on a value or None.
  function CoerceBlocks(content: Option<Json>): Result<seq<Json>, BuildError> {
    match content
    case None => Ok([])
    case Some(Null) => Ok([])
    case Some(Str(s)) => Ok([Json.Str(s)])
    case Some(Arr(items)) => Ok(items)
    case _ => Err(InvalidContent)
  }

  // Iterating a value as Python does. The keys of a mapping are strings, of which the model keeps only the number.
  function Iterate(j: Json): Result<seq<Json>, BuildError> {
    match j
    case Arr(items) => Ok(items)
    case Str(s) => Ok(seq(|s|, i requires 0 <= i < |s| => Json.Str([s[i]])))
    case Obj(m) => Ok(seq(|m|, _ => Json.Str("")))
    case _ => Err(TypeFault)
  }

  // --- Thinking blocks --------------------------------------------------------

  function ThinkingBlockOut(py: Python, block: Json): Result<seq<OutBlock>, BuildError> {
    if !block.Obj? then Err(InvalidContent)
    else if block.Get("type") != Some(Json.Str("thinking")) then Ok([])
    else
      var signature := GetOr(block, "signature", Null);
      var text := py.Str(GetOr(block, "thinking", Json.Str("")));
      Ok([OutReasoning(text, if signature.Truthy() then Some(signature) else None)])
  }

  function ThinkingOut(py: Python, blocks: seq<Json>): Result<seq<OutBlock>, BuildError> {
    if blocks == [] then Ok([])
    else
      var earlier :- ThinkingOut(py, blocks[..|blocks|-1]);
      var last :- ThinkingBlockOut(py, blocks[|blocks|-1]);
      Ok(earlier + last)
  }

  lemma {:induction false} ThinkingErrSticks(py: Python, blocks: seq<Json>, i: nat)
    requires i <= |blocks| && ThinkingOut(py, blocks[..i]).Err?
    ensures ThinkingOut(py, blocks) == ThinkingOut(py, blocks[..i])
  {
    if i == |blocks| {
      assert blocks[..i] == blocks;
    } else {
      assert blocks[..|blocks|-1][..i] == blocks[..i];
      ThinkingErrSticks(py, blocks[..|blocks|-1], i);
    }
  }

  method NormalizeThinkingBlocks(py: Python, thinking: Json) returns (out: Result<seq<OutBlock>, BuildError>)
    ensures CoerceBlocks(Some(thinking)).Err? ==> out == Err(InvalidContent)
    ensures CoerceBlocks(Some(thinking)).Ok? ==> out == ThinkingOut(py, CoerceBlocks(Some(thinking)).value)
  {
    var blocks :- CoerceBlocks(Some(thinking));
    var normalized: seq<OutBlock> := [];
    for i := 0 to |blocks|
      invariant ThinkingOut(py, blocks[..i]) == Ok(normalized)
    {
      assert blocks[..i+1][..i] == blocks[..i];
      var block := blocks[i];
      if !block.Obj? {
        ThinkingErrSticks(py, blocks, i + 1);
        return Err(InvalidContent);
      }
      if block.Get("type") != Some(Json.Str("thinking")) {
        assert normalized + [] == normalized;
        continue;
      }
      var signature := GetOr(block, "signature", Null);
      normalized := normalized + [OutReasoning(py.Str(GetOr(block, "thinking", Json.Str(""))),
                                               if signature.Truthy() then Some(signature) else None)];
    }
    assert blocks[..|blocks|] == blocks;
    out := Ok(normalized);
  }

  // --- Content blocks ---------------------------------------------------------

  function ToolResultBlock(py: Python, block: Json): Result<ResultBlock, BuildError> {
    match block
    case Str(s) => Ok(ResultText(s))
    case Obj(_) =>
      if block.Get("type") == Some(Json.Str("text")) then Ok(ResultText(py.Str(GetOr(block, "text", Json.Str("")))))
      else if block.Get("type") == Some(Json.Str("json")) then Ok(ResultJson(GetOr(block, "json", Obj(map[]))))
      else Err(InvalidContent)
    case _ => Err(InvalidContent)
  }

  function ToolResultBlocks(py: Python, blocks: seq<Json>): Result<seq<ResultBlock>, BuildError> {
    if blocks == [] then Ok([])
    else
      var earlier :- ToolResultBlocks(py, blocks[..|blocks|-1]);
      var last :- ToolResultBlock(py, blocks[|blocks|-1]);
      Ok(earlier + [last])
  }

  function ToolResultContent(py: Python, content: Option<Json>): Result<seq<ResultBlock>, BuildError> {
    var blocks :- CoerceBlocks(content);
    ToolResultBlocks(py, blocks)
  }

  function ContentBlockOut(py: Python, role: string, block: Json): Result<OutBlock, BuildError> {
    match block
    case Str(s) => Ok(OutText(s))
    case Obj(m) =>
      var kind := block.Get("type");
      if kind == Some(Json.Str("text")) then Ok(OutText(py.Str(GetOr(block, "text", Json.Str("")))))
      else if kind == Some(Json.Str("tool_use")) && role == "assistant" then
        Ok(OutToolUse(py.Str(GetOr(block, "id", Json.Str(""))), py.Str(GetOr(block, "name", Json.Str(""))),
                      GetOr(block, "input", Obj(map[]))))
      else if kind == Some(Json.Str("tool_result")) && role == "user" then
        var content :- ToolResultContent(py, block.Get("content"));
        var id := py.Str(GetOr(block, "tool_use_id", Json.Str("")));
        Ok(OutToolResult(id, GetOr(block, "is_error", Null).Truthy(), content))
      else if kind == Some(Json.Str("image")) || kind == Some(Json.Str("document")) then
        Ok(OutMedia(m["type"].s, m - {"type"}))
      else if kind.Some? && (kind.value.Arr? || kind.value.Obj?) then Err(TypeFault)  // not hashable
      else Err(InvalidContent)
    case _ => Err(InvalidContent)
  }

  function ContentBlocksOut(py: Python, role: string, blocks: seq<Json>): (r: Result<seq<OutBlock>, BuildError>)
    ensures r.Ok? ==> |r.value| == |blocks|
  {
    if blocks == [] then Ok([])
    else
      var earlier :- ContentBlocksOut(py, role, blocks[..|blocks|-1]);
      var last :- ContentBlockOut(py, role, blocks[|blocks|-1]);
      Ok(earlier + [last])
  }

  // The leading reasoning blocks of a message's content.
  function Leading(py: Python, role: string, thinking: Json): Result<seq<OutBlock>, BuildError> {
    if role == "assistant" && thinking.Truthy() then
      var blocks :- CoerceBlocks(Some(thinking));
      ThinkingOut(py, blocks)
    else Ok([])
  }

  function ContentOut(py: Python, role: string, content: Option<Json>, thinking: Json):
    Result<seq<OutBlock>, BuildError>
  {
    var blocks :- CoerceBlocks(content);
    var leading :- Leading(py, role, thinking);
    var own :- ContentBlocksOut(py, role, blocks);
    Ok(leading + own)
  }

  lemma {:induction false} ContentErrSticks(py: Python, role: string, blocks: seq<Json>, i: nat)
    requires i <= |blocks| && ContentBlocksOut(py, role, blocks[..i]).Err?
    ensures ContentBlocksOut(py, role, blocks) == ContentBlocksOut(py, role, blocks[..i])
  {
    if i == |blocks| {
      assert blocks[..i] == blocks;
    } else {
      assert blocks[..|blocks|-1][..i] == blocks[..i];
      ContentErrSticks(py, role, blocks[..|blocks|-1], i);
    }
  }

  method NormalizeContentBlocks(py: Python, role: string, content: Option<Json>, thinking: Json)
    returns (out: Result<seq<OutBlock>, BuildError>)
    ensures out == ContentOut(py, role, content, thinking)
  {
    var blocks :- CoerceBlocks(content);
    var normalized: seq<OutBlock> := [];
    if role == "assistant" && thinking.Truthy() {
      normalized :- NormalizeThinkingBlocks(py, thinking);
    }
    ghost var leading := normalized;
    for i := 0 to |blocks|
      invariant Leading(py, role, thinking) == Ok(leading)
      invariant ContentBlocksOut(py, role, blocks[..i]).Ok?
      invariant normalized == leading + ContentBlocksOut(py, role, blocks[..i]).value
    {
      assert blocks[..i+1][..i] == blocks[..i];
      var block := ContentBlockOut(py, role, blocks[i]);
      if block.Err? {
        ContentErrSticks(py, role, blocks, i + 1);
        return Err(block.error);
      }
      normalized := normalized + [block.value];
    }
    assert blocks[..|blocks|] == blocks;
    out := Ok(normalized);
  }

  // --- Messages ---------------------------------------------------------------

  function MessageOut(py: Python, message: Json, includeThinking: bool): Result<OutMessage, BuildError> {
    if !message.Obj? then Err(InvalidContent)
    else
      var role := py.Str(GetOr(message, "role", Json.Str("")));
      if role !in SUPPORTED_MESSAGE_ROLES then Err(InvalidRole)
      else
        var content :- ContentOut(py, role, message.Get("content"),
                                  if includeThinking then GetOr(message, "thinking_blocks", Null) else Null);
        Ok(OutMessage(role, content))
  }

  function MessagesOut(py: Python, messages: seq<Json>, includeThinking: bool): (r: Result<seq<OutMessage>, BuildError>)
    ensures r.Ok? ==> |r.value| == |messages|
  {
    if messages == [] then Ok([])
    else
      var earlier :- MessagesOut(py, messages[..|messages|-1], includeThinking);
      var last :- MessageOut(py, messages[|messages|-1], includeThinking);
      Ok(earlier + [last])
  }

  lemma {:induction false} MessagesErrSticks(py: Python, messages: seq<Json>, includeThinking: bool, i: nat)
    requires i <= |messages| && MessagesOut(py, messages[..i], includeThinking).Err?
    ensures MessagesOut(py, messages, includeThinking) == MessagesOut(py, messages[..i], includeThinking)
  {
    if i == |messages| {
      assert messages[..i] == messages;
    } else {
      assert messages[..|messages|-1][..i] == messages[..i];
      MessagesErrSticks(py, messages[..|messages|-1], includeThinking, i);
    }
  }

  method NormalizeMessage(py: Python, message: Json, includeThinking: bool)
    returns (out: Result<OutMessage, BuildError>)
    ensures out == MessageOut(py, message, includeThinking)
  {
    if !message.Obj? { return Err(InvalidContent); }
    var role := py.Str(GetOr(message, "role", Json.Str("")));
    if role !in SUPPORTED_MESSAGE_ROLES { return Err(InvalidRole); }
    var content :- NormalizeContentBlocks(py, role, message.Get("content"),
                                          if includeThinking then GetOr(message, "thinking_blocks", Null) else Null);
    out := Ok(OutMessage(role, content));
  }

  method NormalizeMessages(py: Python, messages: Json, includeThinking: bool)
    returns (out: Result<seq<OutMessage>, BuildError>)
    ensures Iterate(messages).Err? ==> out == Err(TypeFault)
    ensures Iterate(messages).Ok? ==> out == MessagesOut(py, Iterate(messages).value, includeThinking)
  {
    var raw :- Iterate(messages);
    var normalized: seq<OutMessage> := [];
    for i := 0 to |raw|
      invariant MessagesOut(py, raw[..i], includeThinking) == Ok(normalized)
    {
      assert raw[..i+1][..i] == raw[..i];
      var message := NormalizeMessage(py, raw[i], includeThinking);
      if message.Err? {
        MessagesErrSticks(py, raw, includeThinking, i + 1);
        return Err(message.error);
      }
      normalized := normalized + [message.value];
    }
    assert raw[..|raw|] == raw;
    out := Ok(normalized);
  }

  // --- System prompt and inference settings -----------------------------------

  datatype SystemBlock = SystemText(text: string) | SystemOther(fields: map<string, Json>)

  function SystemBlockOut(py: Python, block: Json): Result<SystemBlock, BuildError> {
    match block
    case Str(s) => Ok(SystemText(s))
    case Obj(m) =>
      if block.Get("type") == Some(Json.Str("text")) then Ok(SystemText(py.Str(GetOr(block, "text", Json.Str("")))))
      else Ok(SystemOther(m))
    case _ => Err(InvalidContent)
  }

  function SystemBlocksOut(py: Python, blocks: seq<Json>): (r: Result<seq<SystemBlock>, BuildError>)
    ensures r.Ok? ==> |r.value| == |blocks|
  {
    if blocks == [] then Ok([])
    else
      var earlier :- SystemBlocksOut(py, blocks[..|blocks|-1]);
      var last :- SystemBlockOut(py, blocks[|blocks|-1]);
      Ok(earlier + [last])
  }

  function SystemOut(py: Python, system: Json): Result<seq<SystemBlock>, BuildError> {
    match system
    case Null => Ok([])
    case Str(s) => Ok([SystemText(s)])
    case Arr(items) => SystemBlocksOut(py, items)
    case _ => Err(InvalidContent)
  }

  lemma {:induction false} SystemErrSticks(py: Python, blocks: seq<Json>, i: nat)
    requires i <= |blocks| && SystemBlocksOut(py, blocks[..i]).Err?
    ensures SystemBlocksOut(py, blocks) == SystemBlocksOut(py, blocks[..i])
  {
    if i == |blocks| {
      assert blocks[..i] == blocks;
    } else {
      assert blocks[..|blocks|-1][..i] == blocks[..i];
      SystemErrSticks(py, blocks[..|blocks|-1], i);
    }
  }

  method NormalizeSystemBlocks(py: Python, system: Json) returns (out: Result<seq<SystemBlock>, BuildError>)
    ensures out == SystemOut(py, system)
  {
    if system == Null { return Ok([]); }
    if system.Str? { return Ok([SystemText(system.s)]); }
    if !system.Arr? { return Err(InvalidContent); }
    var blocks: seq<SystemBlock> := [];
    for i := 0 to |system.items|
      invariant SystemBlocksOut(py, system.items[..i]) == Ok(blocks)
    {
      assert system.items[..i+1][..i] == system.items[..i];
      var block := SystemBlockOut(py, system.items[i]);
      if block.Err? {
        SystemErrSticks(py, system.items, i + 1);
        return Err(block.error);
      }
      blocks := blocks + [block.value];
    }
    assert system.items[..|system.items|] == system.items;
    out := Ok(blocks);
  }

  // Settings that are present and not null.
  datatype Inference = Inference(
    maxTokens: Option<Json>, stopSequences: Option<seq<Json>>, temperature: Option<Json>, topP: Option<Json>)

  function Present(request: Json, key: string): Option<Json> {
    if IsNone(request.Get(key)) then None else request.Get(key)
  }

  function BuildInference(request: Json): Result<Inference, BuildError> {
    var stops :- match Present(request, "stop_sequences")
                 case None => Ok(None)
                 case Some(j) => (var items :- Iterate(j); Ok(Some(items)));
    Ok(Inference(Present(request, "max_tokens"), stops, Present(request, "temperature"), Present(request, "top_p")))
  }

  // --- Reasoning --------------------------------------------------------------

  predicate IsToolUse(block: Json) { block.Obj? && block.Get("type") == Some(Json.Str("tool_use")) }

  predicate AnyToolUse(blocks: seq<Json>) { exists i | 0 <= i < |blocks| :: IsToolUse(blocks[i]) }

  predicate IsAssistant(message: Json) { message.Obj? && message.Get("role") == Some(Json.Str("assistant")) }

  // The message breaks continuity, if its content can be read.
  function BreaksContinuity(message: Json): Result<bool, BuildError> {
    if !IsAssistant(message) then Ok(false)
    else
      var blocks :- CoerceBlocks(message.Get("content"));
      Ok(AnyToolUse(blocks) && !GetOr(message, "thinking_blocks", Null).Truthy())
  }

  // The first message that breaks continuity, or cannot be read, decides.
  function HasReasoningContinuity(messages: seq<Json>): Result<bool, BuildError> {
    if messages == [] then Ok(true)
    else
      var breaks :- BreaksContinuity(messages[0]);
      if breaks then Ok(false) else HasReasoningContinuity(messages[1..])
  }

  lemma {:induction false} ContinuityMeans(messages: seq<Json>)
    ensures HasReasoningContinuity(messages) == Ok(true) <==>
            forall i | 0 <= i < |messages| :: BreaksContinuity(messages[i]) == Ok(false)
  {
    if messages != [] {
      ContinuityMeans(messages[1..]);
      forall i | 0 < i < |messages| ensures messages[i] == messages[1..][i-1] {}
    }
  }

  datatype Capabilities = Capabilities(nativeStructuredOutput: bool, reasoning: bool, disableParallelToolUse: bool)

  function IsNone(j: Option<Json>): bool { j == None || j == Some(Null) }

  // The thinking budget the request asks for, if it asks for reasoning and the model has it.
  function RequestedBudget(py: Python, request: Json, caps: Capabilities): Result<Option<int>, BuildError> {
    var thinking, effort := GetOr(request, "thinking", Null), GetOr(request, "reasoning_effort", Null);
    if !caps.reasoning || (thinking == Null && effort == Null) then Ok(None)
    else if !IsNone(thinking.Get("budget_tokens")) then
      match py.int_(thinking.Get("budget_tokens").value)
      case None => Err(TypeFault)
      case Some(n) => Ok(Some(if n > MIN_REASONING_BUDGET_TOKENS then n else MIN_REASONING_BUDGET_TOKENS))
    else if effort.Str? then
      Ok(Some(REASONING_BUDGETS[if effort.s in REASONING_BUDGETS then effort.s else "medium"]))
    else Ok(Some(MIN_REASONING_BUDGET_TOKENS))
  }

  // --- Tools and output -------------------------------------------------------

  datatype ToolChoice = AutoChoice | AnyChoice | NamedChoice(name: string)

  datatype ToolSpec = ToolSpec(name: string, description: Json, schema: Json)

  datatype ToolConfig = ToolConfig(tools: seq<ToolSpec>, choice: Option<ToolChoice>)

  function MapToolChoice(py: Python, choice: Json, reasoningEnabled: bool): Option<ToolChoice> {
    if choice == Null then None
    else if reasoningEnabled || !choice.Obj? then Some(AutoChoice)
    else if choice.Get("type") == Some(Json.Str("tool")) then
      Some(NamedChoice(py.Str(GetOr(choice, "name", Json.Str("")))))
    else if choice.Get("type") == Some(Json.Str("any")) then Some(AnyChoice)
    else Some(AutoChoice)
  }

  // _normalize_schema: a deep copy of a mapping, injected.
  function NormalizeSchema(schema: Json): Result<Json, BuildError> {
    if schema.Obj? then Ok(Inject(schema)) else Err(TypeFault)
  }

  function ToolOut(py: Python, tool: Json): Result<ToolSpec, BuildError> {
    if !tool.Obj? then Err(TypeFault)
    else
      var schema :- NormalizeSchema(GetOr(tool, "input_schema", Obj(map["type" := Json.Str("object")])));
      Ok(ToolSpec(py.Str(GetOr(tool, "name", Json.Str(""))), GetOr(tool, "description", Null), schema))
  }

  function ToolsOut(py: Python, tools: seq<Json>): Result<seq<ToolSpec>, BuildError> {
    if tools == [] then Ok([])
    else
      var first :- ToolOut(py, tools[0]);
      var rest :- ToolsOut(py, tools[1..]);
      Ok([first] + rest)
  }

  // Every tool keeps its place, and its schema goes out normalized.
  lemma {:induction false} ToolsAreNormalized(py: Python, tools: seq<Json>, i: nat)
    requires ToolsOut(py, tools).Ok? && i < |tools|
    ensures |ToolsOut(py, tools).value| == |tools|
    ensures ToolsOut(py, tools).value[i].schema ==
            Inject(GetOr(tools[i], "input_schema", Obj(map["type" := Json.Str("object")])))
    ensures ToolsOut(py, tools).value[i].name == py.Str(GetOr(tools[i], "name", Json.Str("")))
  {
    if i > 0 {
      ToolsAreNormalized(py, tools[1..], i - 1);
    } else if |tools| > 1 {
      ToolsAreNormalized(py, tools[1..], 0);
    }
  }

  function BuildToolConfig(py: Python, request: Json, reasoningEnabled: bool): Result<Option<ToolConfig>, BuildError> {
    var tools, choice := GetOr(request, "tools", Null), GetOr(request, "tool_choice", Null);
    if !tools.Truthy() && choice == Null then Ok(None)
    else
      var list :- if tools.Truthy() then Iterate(tools) else Ok([]);
      var specs :- ToolsOut(py, list);
      Ok(Some(ToolConfig(specs, MapToolChoice(py, choice, reasoningEnabled))))
  }

  datatype OutputConfig = OutputConfig(schema: Json, name: Option<Json>, description: Option<Json>)

  // The schema of a structured-output request, normalized.
  function BuildOutputConfig(request: Json, caps: Capabilities): Result<Option<OutputConfig>, BuildError> {
    var format := GetOr(request, "response_format", Null);
    if format == Null then Ok(None)
    else if !format.Obj? || format.Get("type") == Some(Json.Str("json_object")) then Err(StructuredOutputNotSupported)
    else
      var config := GetOr(format, "json_schema", Null);
      var schema := GetOr(config, "schema", Null);
      if !caps.nativeStructuredOutput || !schema.Obj? then Err(StructuredOutputNotSupported)
      else Ok(Some(OutputConfig(Inject(schema), Present(config, "name"), Present(config, "description"))))
  }

  // --- The whole build --------------------------------------------------------

  datatype ConverseRequest = ConverseRequest(
    messages: seq<OutMessage>,
    system: seq<SystemBlock>,
    inference: Inference,
    toolConfig: Option<ToolConfig>,
    disableParallelToolUse: bool,
    thinkingBudget: Option<int>,
    output: Option<OutputConfig>,
    streaming: bool,
    reasoningEnabled: bool)

  function MessagesOf(request: Json): Json { GetOr(request, "messages", Arr([])) }

  // Whether reasoning goes ahead: asked for, supported, and with continuous thinking.
  function ReasoningEnabled(request: Json, budget: Option<int>): Result<bool, BuildError> {
    if budget == None then Ok(false)
    else
      var messages :- if MessagesOf(request).Truthy() then Iterate(MessagesOf(request)) else Ok([]);
      HasReasoningContinuity(messages)
  }

  function Build(py: Python, request: Json, caps: Capabilities): Result<ConverseRequest, BuildError> {
    var budget :- RequestedBudget(py, request, caps);
    var enabled :- ReasoningEnabled(request, budget);
    var raw :- Iterate(MessagesOf(request));
    var messages :- MessagesOut(py, raw, enabled);
    var system :- SystemOut(py, GetOr(request, "system", Null));
    var inference :- BuildInference(request);
    var tools :- BuildToolConfig(py, request, enabled);
    var output :- BuildOutputConfig(request, caps);
    var disable := request.Get("parallel_tool_calls") == Some(Bool(false)) && caps.disableParallelToolUse;
    Ok(ConverseRequest(messages, system, inference, tools, disable, if enabled then budget else None, output,
                       GetOr(request, "stream", Null).Truthy(), enabled))
  }

  method BuildConverseRequest(py: Python, request: Json, caps: Capabilities)
    returns (out: Result<ConverseRequest, BuildError>)
    ensures out == Build(py, request, caps)
  {
    var budget :- RequestedBudget(py, request, caps);
    var enabled :- ReasoningEnabled(request, budget);
    var messages :- NormalizeMessages(py, MessagesOf(request), enabled);
    var system :- NormalizeSystemBlocks(py, GetOr(request, "system", Null));
    var inference :- BuildInference(request);
    var tools :- BuildToolConfig(py, request, enabled);
    var output :- BuildOutputConfig(request, caps);
    var disable := request.Get("parallel_tool_calls") == Some(Bool(false)) && caps.disableParallelToolUse;
    out := Ok(ConverseRequest(messages, system, inference, tools, disable, if enabled then budget else None, output,
                              GetOr(request, "stream", Null).Truthy(), enabled));
  }
}
