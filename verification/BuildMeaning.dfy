// A whole Converse request against the request it was built from: what each of its parts says, and which requests are
// accepted at all.
module BuildMeaning {
  import opened Wrappers
  import opened JsonValues
  import opened SchemaNormalizer
  import opened RequestBuilder
  import opened RequestMeaning
  import opened ReasoningGating

  // --- System prompt ----------------------------------------------------------

  predicate SystemBlockSays(py: Python, block: Json, out: SystemBlock) {
    match out
    case SystemText(text) => block == Json.Str(text) || (HasType(block, "text") && TextIs(py, block, "text", text))
    case SystemOther(fields) => block == Obj(fields) && !HasType(block, "text")
  }

  predicate SystemSays(py: Python, system: Option<Json>, out: seq<SystemBlock>) {
    match system
    case None => out == []
    case Some(Null) => out == []
    case Some(Str(s)) => out == [SystemText(s)]
    case Some(Arr(items)) => |out| == |items| && forall k | 0 <= k < |out| :: SystemBlockSays(py, items[k], out[k])
    case _ => false
  }

  predicate SystemAccepted(system: Option<Json>) {
    match system
    case None => true
    case Some(Null) => true
    case Some(Str(_)) => true
    case Some(Arr(items)) => forall k | 0 <= k < |items| :: items[k].Str? || items[k].Obj?
    case _ => false
  }

  lemma OneSystemMeans(py: Python, block: Json)
    ensures SystemBlockOut(py, block).Ok? <==> block.Str? || block.Obj?
    ensures SystemBlockOut(py, block).Ok? ==> SystemBlockSays(py, block, SystemBlockOut(py, block).value)
    ensures SystemBlockOut(py, block).Err? ==> SystemBlockOut(py, block) == Err(InvalidContent)
  {
  }

  lemma {:induction false} SystemBlocksMean(py: Python, blocks: seq<Json>)
    ensures SystemBlocksOut(py, blocks).Ok? <==> forall k | 0 <= k < |blocks| :: blocks[k].Str? || blocks[k].Obj?
    ensures SystemBlocksOut(py, blocks).Err? ==> SystemBlocksOut(py, blocks) == Err(InvalidContent)
    ensures SystemBlocksOut(py, blocks).Ok? ==>
      forall k | 0 <= k < |blocks| :: SystemBlockSays(py, blocks[k], SystemBlocksOut(py, blocks).value[k])
  {
    if blocks != [] {
      var front := blocks[..|blocks|-1];
      SystemBlocksMean(py, front);
      OneSystemMeans(py, blocks[|blocks|-1]);
      assert forall k | 0 <= k < |front| :: front[k] == blocks[k];
    }
  }

  lemma SystemValueMeans(py: Python, system: Json)
    ensures SystemOut(py, system).Ok? <==> SystemAccepted(Some(system))
    ensures SystemOut(py, system).Err? ==> SystemOut(py, system) == Err(InvalidContent)
    ensures SystemOut(py, system).Ok? ==> SystemSays(py, Some(system), SystemOut(py, system).value)
  {
    if system.Arr? { SystemBlocksMean(py, system.items); }
  }

  lemma SystemMeans(py: Python, request: Json)
    ensures SystemOut(py, GetOr(request, "system", Null)).Ok? <==> SystemAccepted(Member(request, "system"))
    ensures !SystemAccepted(Member(request, "system")) ==>
      SystemOut(py, GetOr(request, "system", Null)) == Err(InvalidContent)
    ensures SystemOut(py, GetOr(request, "system", Null)).Ok? ==>
      SystemSays(py, Member(request, "system"), SystemOut(py, GetOr(request, "system", Null)).value)
  {
    SystemValueMeans(py, GetOr(request, "system", Null));
  }

  // --- Inference settings -----------------------------------------------------

  // The setting goes along if it is there and not null.
  predicate SettingIs(request: Json, key: string, out: Option<Json>) {
    out == (if IsGiven(request, key) then Member(request, key) else None)
  }

  predicate InferenceSays(request: Json, out: Inference) {
    && SettingIs(request, "max_tokens", out.maxTokens)
    && SettingIs(request, "temperature", out.temperature)
    && SettingIs(request, "top_p", out.topP)
    && (out.stopSequences.Some? <==> IsGiven(request, "stop_sequences"))
    && (match Member(request, "stop_sequences")
        case Some(Arr(items)) => out.stopSequences == Some(items)
        case _ => true)
  }

  predicate StopsAccepted(request: Json) {
    IsGiven(request, "stop_sequences") ==>
      var stops := Member(request, "stop_sequences").value;
      stops.Arr? || stops.Str? || stops.Obj?
  }

  lemma InferenceMeans(request: Json)
    ensures BuildInference(request).Ok? <==> StopsAccepted(request)
    ensures BuildInference(request).Err? ==> BuildInference(request) == Err(TypeFault)
    ensures BuildInference(request).Ok? ==> InferenceSays(request, BuildInference(request).value)
  {
  }

  // --- Tools ------------------------------------------------------------------

  function InputSchema(tool: Json): Json {
    if Member(tool, "input_schema").Some? then Member(tool, "input_schema").value
    else Obj(map["type" := Json.Str("object")])
  }

  ghost predicate ToolSays(py: Python, tool: Json, spec: ToolSpec) {
    && TextIs(py, tool, "name", spec.name)
    && ValueIs(tool, "description", Null, spec.description)
    && OnlyCloses(InputSchema(tool), spec.schema)
  }

  predicate ToolAccepted(tool: Json) { tool.Obj? && InputSchema(tool).Obj? }

  predicate ChoiceSays(py: Python, request: Json, reasoning: bool, out: Option<ToolChoice>) {
    if !IsGiven(request, "tool_choice") then out == None
    else
      var choice := Member(request, "tool_choice").value;
      if reasoning then out == Some(AutoChoice)
      else if HasType(choice, "tool") then
        out.Some? && out.value.NamedChoice? && TextIs(py, choice, "name", out.value.name)
      else if HasType(choice, "any") then out == Some(AnyChoice)
      else out == Some(AutoChoice)
  }

  ghost predicate ToolsSay(py: Python, request: Json, reasoning: bool, out: Option<ToolConfig>) {
    var tools := Member(request, "tools");
    if !IsTrue(tools) && !IsGiven(request, "tool_choice") then out == None
    else
      && out.Some? && ChoiceSays(py, request, reasoning, out.value.choice)
      && (if !IsTrue(tools) then out.value.tools == []
          else
            && tools.value.Arr? && |out.value.tools| == |tools.value.items|
            && forall k | 0 <= k < |out.value.tools| :: ToolSays(py, tools.value.items[k], out.value.tools[k]))
  }

  predicate ToolsAccepted(request: Json) {
    var tools := Member(request, "tools");
    IsTrue(tools) ==> tools.value.Arr? && forall k | 0 <= k < |tools.value.items| :: ToolAccepted(tools.value.items[k])
  }

  lemma OneToolMeans(py: Python, tool: Json)
    ensures ToolOut(py, tool).Ok? <==> ToolAccepted(tool)
    ensures ToolOut(py, tool).Err? ==> ToolOut(py, tool) == Err(TypeFault)
    ensures ToolOut(py, tool).Ok? ==> ToolSays(py, tool, ToolOut(py, tool).value)
  {
    InjectOnlyCloses(InputSchema(tool));
  }

  lemma {:induction false} ToolsMean(py: Python, tools: seq<Json>)
    ensures ToolsOut(py, tools).Ok? <==> forall k | 0 <= k < |tools| :: ToolAccepted(tools[k])
    ensures ToolsOut(py, tools).Err? ==> ToolsOut(py, tools) == Err(TypeFault)
    ensures ToolsOut(py, tools).Ok? ==>
      && |ToolsOut(py, tools).value| == |tools|
      && forall k | 0 <= k < |tools| :: ToolSays(py, tools[k], ToolsOut(py, tools).value[k])
  {
    if tools != [] {
      OneToolMeans(py, tools[0]);
      ToolsMean(py, tools[1..]);
      assert forall k | 1 <= k < |tools| :: tools[k] == tools[1..][k-1];
    }
  }

  lemma ToolConfigMeans(py: Python, request: Json, reasoning: bool)
    ensures BuildToolConfig(py, request, reasoning).Ok? <==> ToolsAccepted(request)
    ensures BuildToolConfig(py, request, reasoning).Err? ==> BuildToolConfig(py, request, reasoning) == Err(TypeFault)
    ensures BuildToolConfig(py, request, reasoning).Ok? ==>
      ToolsSay(py, request, reasoning, BuildToolConfig(py, request, reasoning).value)
  {
    var tools := GetOr(request, "tools", Null);
    if tools.Truthy() && Iterate(tools).Ok? {
      ToolsMean(py, Iterate(tools).value);
      if !tools.Arr? { assert Iterate(tools).value[0].Str?; }
    }
  }

  // --- Structured output ------------------------------------------------------

  function OutputSchema(request: Json): Option<Json> {
    var format := Member(request, "response_format");
    if format.None? || Member(format.value, "json_schema").None? then None
    else Member(Member(format.value, "json_schema").value, "schema")
  }

  predicate OutputAccepted(request: Json, caps: Capabilities) {
    IsGiven(request, "response_format") ==>
      && caps.nativeStructuredOutput && !HasType(Member(request, "response_format").value, "json_object")
      && OutputSchema(request).Some? && OutputSchema(request).value.Obj?
  }

  ghost predicate OutputSays(request: Json, out: Option<OutputConfig>) {
    if !IsGiven(request, "response_format") then out == None
    else
      && out.Some? && OutputSchema(request).Some? && OnlyCloses(OutputSchema(request).value, out.value.schema)
      && var config := Member(Member(request, "response_format").value, "json_schema").value;
         SettingIs(config, "name", out.value.name) && SettingIs(config, "description", out.value.description)
  }

  lemma OutputMeans(request: Json, caps: Capabilities)
    ensures BuildOutputConfig(request, caps).Ok? <==> OutputAccepted(request, caps)
    ensures BuildOutputConfig(request, caps).Ok? ==> OutputSays(request, BuildOutputConfig(request, caps).value)
    ensures BuildOutputConfig(request, caps).Err? ==>
      BuildOutputConfig(request, caps) == Err(StructuredOutputNotSupported)
  {
    if OutputSchema(request).Some? { InjectOnlyCloses(OutputSchema(request).value); }
  }

  // --- The whole request ------------------------------------------------------

  predicate AsksForReasoning(request: Json, caps: Capabilities) {
    caps.reasoning && (IsGiven(request, "thinking") || IsGiven(request, "reasoning_effort"))
  }

  predicate Reasons(request: Json, caps: Capabilities) {
    && AsksForReasoning(request, caps)
    && forall i | 0 <= i < |RawMessages(request)| :: KeepsContinuity(RawMessages(request)[i])
  }

  // Every part of the request out, by what it says of the request in.
  ghost predicate RequestSays(py: Python, request: Json, caps: Capabilities, out: ConverseRequest) {
    && (out.reasoningEnabled <==> Reasons(request, caps))
    && (if out.reasoningEnabled then out.thinkingBudget.Some? && BudgetSays(py, request, out.thinkingBudget.value)
        else out.thinkingBudget == None)
    && |out.messages| == |RawMessages(request)|
    && (forall i | 0 <= i < |out.messages| ::
          Renders(py, RawMessages(request)[i], out.messages[i], out.reasoningEnabled))
    && SystemSays(py, Member(request, "system"), out.system)
    && InferenceSays(request, out.inference)
    && ToolsSay(py, request, out.reasoningEnabled, out.toolConfig)
    && OutputSays(request, out.output)
    && (out.disableParallelToolUse <==>
        Member(request, "parallel_tool_calls") == Some(Bool(false)) && caps.disableParallelToolUse)
    && (out.streaming <==> IsTrue(Member(request, "stream")))
  }

  lemma BuildMeans(py: Python, request: Json, caps: Capabilities)
    requires Build(py, request, caps).Ok?
    ensures RequestSays(py, request, caps, Build(py, request, caps).value)
  {
    var out := Build(py, request, caps).value;
    EnabledExactly(py, request, caps);
    if out.reasoningEnabled {
      BudgetFollowsRequest(py, request, caps);
    } else {
      DisabledMeansNone(py, request, caps);
    }
    ConversationIsKept(py, request, caps);
    PartsMean(py, request, caps, out);
    FlagsMean(py, request, caps, out);
  }

  // The other parts of a build, as their own functions make them.
  lemma BuildParts(py: Python, request: Json, caps: Capabilities, out: ConverseRequest)
    requires Build(py, request, caps) == Ok(out)
    ensures SystemOut(py, GetOr(request, "system", Null)) == Ok(out.system)
    ensures BuildInference(request) == Ok(out.inference)
    ensures BuildToolConfig(py, request, out.reasoningEnabled) == Ok(out.toolConfig)
    ensures BuildOutputConfig(request, caps) == Ok(out.output)
  {
  }

  lemma PartsMean(py: Python, request: Json, caps: Capabilities, out: ConverseRequest)
    requires Build(py, request, caps) == Ok(out)
    ensures SystemSays(py, Member(request, "system"), out.system) && InferenceSays(request, out.inference)
    ensures ToolsSay(py, request, out.reasoningEnabled, out.toolConfig) && OutputSays(request, out.output)
  {
    BuildParts(py, request, caps, out);
    SystemMeans(py, request);
    InferenceMeans(request);
    ToolConfigMeans(py, request, out.reasoningEnabled);
    OutputMeans(request, caps);
  }

  lemma BuildFlags(py: Python, request: Json, caps: Capabilities, out: ConverseRequest)
    requires Build(py, request, caps) == Ok(out)
    ensures out.disableParallelToolUse ==
            (request.Get("parallel_tool_calls") == Some(Bool(false)) && caps.disableParallelToolUse)
    ensures out.streaming == GetOr(request, "stream", Null).Truthy()
  {
  }

  lemma TruthMeans(j: Json)
    ensures j.Truthy() <==> IsTrue(Some(j))
  {
  }

  lemma FlagsMean(py: Python, request: Json, caps: Capabilities, out: ConverseRequest)
    requires Build(py, request, caps) == Ok(out)
    ensures out.disableParallelToolUse <==>
            Member(request, "parallel_tool_calls") == Some(Bool(false)) && caps.disableParallelToolUse
    ensures out.streaming <==> IsTrue(Member(request, "stream"))
  {
    BuildFlags(py, request, caps, out);
    TruthMeans(GetOr(request, "stream", Null));
  }

  // --- Which requests are accepted --------------------------------------------

  // The budget, if one is asked for by number, is a number.
  predicate BudgetAccepted(py: Python, request: Json, caps: Capabilities) {
    AsksForReasoning(request, caps) && ExplicitBudget(request).Some? ==> py.int_(ExplicitBudget(request).value).Some?
  }

  // There is a list of messages, or nothing to iterate over.
  predicate MessagesAreList(request: Json) {
    var messages := Member(request, "messages");
    messages.None? || messages.value.Arr? || messages.value == Json.Str("") || messages.value == Obj(map[])
  }

  predicate ConversationAccepted(py: Python, request: Json, caps: Capabilities) {
    && MessagesAreList(request)
    && forall i | 0 <= i < |RawMessages(request)| ::
         MessageAccepted(py, RawMessages(request)[i], Reasons(request, caps))
  }

  predicate RequestAccepted(py: Python, request: Json, caps: Capabilities) {
    && BudgetAccepted(py, request, caps)
    && ConversationAccepted(py, request, caps)
    && SystemAccepted(Member(request, "system"))
    && StopsAccepted(request)
    && ToolsAccepted(request)
    && OutputAccepted(request, caps)
  }

  lemma BudgetAcceptedExactly(py: Python, request: Json, caps: Capabilities)
    ensures RequestedBudget(py, request, caps).Ok? <==> BudgetAccepted(py, request, caps)
    ensures RequestedBudget(py, request, caps).Err? ==> RequestedBudget(py, request, caps) == Err(TypeFault)
    ensures RequestedBudget(py, request, caps).Ok? ==>
      (RequestedBudget(py, request, caps).value.Some? <==> AsksForReasoning(request, caps))
  {
  }

  lemma {:induction false} MessagesAccepted(py: Python, raw: seq<Json>, includeThinking: bool)
    ensures MessagesOut(py, raw, includeThinking).Ok? <==>
            forall i | 0 <= i < |raw| :: MessageAccepted(py, raw[i], includeThinking)
  {
    if raw != [] {
      var front := raw[..|raw|-1];
      MessagesAccepted(py, front, includeThinking);
      MessageAcceptedExactly(py, raw[|raw|-1], includeThinking);
      assert forall i | 0 <= i < |front| :: front[i] == raw[i];
    }
  }

  // Where every message can be read, so can their continuity.
  lemma {:induction false} ContinuityReads(raw: seq<Json>)
    requires forall i | 0 <= i < |raw| :: IsList(Member(raw[i], "content"))
    ensures HasReasoningContinuity(raw) == Ok(forall i | 0 <= i < |raw| :: KeepsContinuity(raw[i]))
  {
    if raw != [] {
      BreaksExactly(raw[0]);
      ContinuityReads(raw[1..]);
      assert forall i | 1 <= i < |raw| :: raw[i] == raw[1..][i-1];
    }
  }

  // What the messages of an accepted build, or of an acceptable request, amount to.
  lemma MessagesRead(py: Python, request: Json, caps: Capabilities)
    requires MessagesAreList(request)
    requires forall i | 0 <= i < |RawMessages(request)| :: IsList(Member(RawMessages(request)[i], "content"))
    requires RequestedBudget(py, request, caps).Ok?
    ensures Iterate(MessagesOf(request)) == Ok(RawMessages(request))
    ensures ReasoningEnabled(request, RequestedBudget(py, request, caps).value) == Ok(Reasons(request, caps))
  {
    BudgetAcceptedExactly(py, request, caps);
    ContinuityReads(RawMessages(request));
    var messages := Member(request, "messages");
    if messages.Some? && !messages.value.Arr? {
      var nothing := Iterate(messages.value).value;
      assert |nothing| == 0 && nothing == [];
    }
    assert RawMessages(request) == [] || MessagesOf(request).Truthy();
  }

  // Past the messages, the first part that is not acceptable decides the error, in the order of the build.
  lemma RefusalReason(py: Python, request: Json, caps: Capabilities)
    ensures var built := Build(py, request, caps);
      && (!BudgetAccepted(py, request, caps) ==> built == Err(TypeFault))
      && (BudgetAccepted(py, request, caps) && ConversationAccepted(py, request, caps) ==>
            if !SystemAccepted(Member(request, "system")) then built == Err(InvalidContent)
            else if !StopsAccepted(request) || !ToolsAccepted(request) then built == Err(TypeFault)
            else if !OutputAccepted(request, caps) then built == Err(StructuredOutputNotSupported)
            else built.Ok?)
  {
    BudgetAcceptedExactly(py, request, caps);
    if BudgetAccepted(py, request, caps) && ConversationAccepted(py, request, caps) {
      var enabled := Reasons(request, caps);
      MessagesRead(py, request, caps);
      MessagesAccepted(py, RawMessages(request), enabled);
      SystemMeans(py, request);
      InferenceMeans(request);
      ToolConfigMeans(py, request, enabled);
      OutputMeans(request, caps);
    }
  }

  lemma BuiltIsAccepted(py: Python, request: Json, caps: Capabilities)
    requires Build(py, request, caps).Ok?
    ensures RequestAccepted(py, request, caps)
  {
    var out := Build(py, request, caps).value;
    BuildParts(py, request, caps, out);
    BudgetAcceptedExactly(py, request, caps);
    EnabledExactly(py, request, caps);
    BuildSteps(py, request, caps);
    MessagesAccepted(py, RawMessages(request), out.reasoningEnabled);
    SystemMeans(py, request);
    InferenceMeans(request);
    ToolConfigMeans(py, request, out.reasoningEnabled);
    OutputMeans(request, caps);
    BuiltMessagesAreList(py, request, caps);
  }

  lemma BuiltMessagesAreList(py: Python, request: Json, caps: Capabilities)
    requires Build(py, request, caps).Ok?
    ensures MessagesAreList(request)
  {
    var enabled := Build(py, request, caps).value.reasoningEnabled;
    IteratedMessages(py, request, enabled);
  }

  // A request is built exactly if its parts are acceptable.
  lemma AcceptedExactly(py: Python, request: Json, caps: Capabilities)
    ensures Build(py, request, caps).Ok? <==> RequestAccepted(py, request, caps)
  {
    RefusalReason(py, request, caps);
    if Build(py, request, caps).Ok? { BuiltIsAccepted(py, request, caps); }
  }
}
