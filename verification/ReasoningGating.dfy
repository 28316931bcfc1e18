// What a successful build says about reasoning and about the conversation it carries.
module ReasoningGating {
  import opened Wrappers
  import opened JsonValues
  import opened InStep
  import opened RequestBuilder
  import opened RequestMeaning

  predicate NoReasoning(blocks: seq<OutBlock>) { forall i | 0 <= i < |blocks| :: !blocks[i].OutReasoning? }

  predicate OnlyReasoning(blocks: seq<OutBlock>) { forall i | 0 <= i < |blocks| :: blocks[i].OutReasoning? }

  predicate AnyThinking(blocks: seq<Json>) { exists k | 0 <= k < |blocks| :: IsThinking(blocks[k]) }

  function ThinkingCount(blocks: seq<Json>): nat {
    if blocks == [] then 0 else ThinkingCount(blocks[..|blocks|-1]) + (if IsThinking(blocks[|blocks|-1]) then 1 else 0)
  }

  // The blocks of a thinking_blocks value that a build accepted.
  function ThinkingItems(message: Json): seq<Json> {
    match Member(message, "thinking_blocks")
    case Some(Arr(items)) => items
    case _ => []
  }

  function ContentItems(message: Json): seq<Json> { Items(Member(message, "content")) }

  // --- One message ------------------------------------------------------------

  lemma {:induction false} ThinkingShape(py: Python, blocks: seq<Json>)
    requires ThinkingOut(py, blocks).Ok?
    ensures OnlyReasoning(ThinkingOut(py, blocks).value)
    ensures |ThinkingOut(py, blocks).value| == ThinkingCount(blocks)
  {
    if blocks != [] { ThinkingShape(py, blocks[..|blocks|-1]); }
  }

  lemma {:induction false} OwnShape(py: Python, role: string, blocks: seq<Json>, j: nat)
    requires ContentBlocksOut(py, role, blocks).Ok? && j < |blocks|
    ensures BlockSays(py, role, blocks[j], ContentBlocksOut(py, role, blocks).value[j])
  {
    if j < |blocks| - 1 {
      OwnShape(py, role, blocks[..|blocks|-1], j);
    } else {
      BlockExactly(py, role, blocks[j], ContentBlocksOut(py, role, blocks).value[j]);
    }
  }

  lemma LeadingShape(py: Python, role: string, thinking: Json)
    requires Leading(py, role, thinking).Ok?
    ensures OnlyReasoning(Leading(py, role, thinking).value)
    ensures role == "assistant" && thinking.Truthy() ==>
              && thinking.Arr? && thinking.items != []
              && |Leading(py, role, thinking).value| == ThinkingCount(thinking.items)
    ensures role != "assistant" || !thinking.Truthy() ==> Leading(py, role, thinking).value == []
  {
    if role == "assistant" && thinking.Truthy() {
      if thinking.Str? {
        assert ThinkingOut(py, [thinking]) == Err(InvalidContent) by {
          assert [thinking][..0] == [];
          assert ThinkingOut(py, []) == Ok([]);
        }
      } else {
        ThinkingShape(py, CoerceBlocks(Some(thinking)).value);
      }
    }
  }

  // The thinking blocks that go along with a message of this role.
  function Shown(message: Json, role: string, includeThinking: bool): seq<Json> {
    if includeThinking && role == "assistant" then ThinkingItems(message) else []
  }

  // An output message against the message it came from: the role, the own content block for block, and before it
  // one reasoning block per thinking block of an assistant when thinking is included, each saying the same by its
  // fields.
  ghost predicate Renders(py: Python, message: Json, out: OutMessage, includeThinking: bool) {
    && TextIs(py, message, "role", out.role) && (out.role == "user" || out.role == "assistant")
    && exists lead: nat :: RendersAfter(py, message, out, includeThinking, lead)
  }

  ghost predicate RendersAfter(py: Python, message: Json, out: OutMessage, includeThinking: bool, lead: nat) {
    && lead == ThinkingCount(Shown(message, out.role, includeThinking))
    && |out.content| == lead + |ContentItems(message)|
    && OnlyReasoning(out.content[..lead])
    && NoReasoning(out.content[lead..])
    && Mirrors(Shown(message, out.role, includeThinking), out.content[..lead], IsThinking, ThinkingSaysIn(py))
    && forall j | 0 <= j < |ContentItems(message)| ::
         BlockSays(py, out.role, ContentItems(message)[j], out.content[lead + j])
  }

  lemma LeadingSays(py: Python, message: Json, role: string, includeThinking: bool)
    requires message.Obj?
    requires var thinking := if includeThinking then GetOr(message, "thinking_blocks", Null) else Null;
      Leading(py, role, thinking).Ok?
    ensures var thinking := if includeThinking then GetOr(message, "thinking_blocks", Null) else Null;
      var leading, shown := Leading(py, role, thinking).value, Shown(message, role, includeThinking);
      && OnlyReasoning(leading) && |leading| == ThinkingCount(shown)
      && Mirrors(shown, leading, IsThinking, ThinkingSaysIn(py))
  {
    var thinking := if includeThinking then GetOr(message, "thinking_blocks", Null) else Null;
    LeadingShape(py, role, thinking);
    ThinkingExactly(py, Shown(message, role, includeThinking));
  }

  // An accepted message, taken apart.
  lemma MessageParts(py: Python, message: Json, includeThinking: bool)
    returns (leading: seq<OutBlock>, own: seq<OutBlock>)
    requires MessageOut(py, message, includeThinking).Ok?
    ensures var out := MessageOut(py, message, includeThinking).value;
      && TextIs(py, message, "role", out.role) && (out.role == "user" || out.role == "assistant")
      && out.content == leading + own
      && OnlyReasoning(leading) && |leading| == ThinkingCount(Shown(message, out.role, includeThinking))
      && Mirrors(Shown(message, out.role, includeThinking), leading, IsThinking, ThinkingSaysIn(py))
      && ContentBlocksOut(py, out.role, ContentItems(message)) == Ok(own)
  {
    var out := MessageOut(py, message, includeThinking).value;
    var thinking := if includeThinking then GetOr(message, "thinking_blocks", Null) else Null;
    leading := Leading(py, out.role, thinking).value;
    own := ContentBlocksOut(py, out.role, ContentItems(message)).value;
    LeadingSays(py, message, out.role, includeThinking);
  }

  lemma MessageRenders(py: Python, message: Json, includeThinking: bool)
    requires MessageOut(py, message, includeThinking).Ok?
    ensures Renders(py, message, MessageOut(py, message, includeThinking).value, includeThinking)
  {
    var out := MessageOut(py, message, includeThinking).value;
    var leading, own := MessageParts(py, message, includeThinking);
    forall j | 0 <= j < |own|
      ensures BlockSays(py, out.role, ContentItems(message)[j], own[j]) && !own[j].OutReasoning?
    {
      OwnShape(py, out.role, ContentItems(message), j);
    }
    assert out.content[..|leading|] == leading && out.content[|leading|..] == own;
    assert RendersAfter(py, message, out, includeThinking, |leading|);
  }

  // --- Which messages are accepted --------------------------------------------

  function RoleOf(py: Python, message: Json): string {
    if Member(message, "role").Some? then Printed(py, Member(message, "role").value) else ""
  }

  // A mapping with one of the two roles, content that is a list of blocks this role may hold, and, where thinking goes
  // along, thinking that is absent or a list of mappings.
  predicate MessageAccepted(py: Python, message: Json, includeThinking: bool) {
    var role, thinking := RoleOf(py, message), Member(message, "thinking_blocks");
    && message.Obj? && (role == "user" || role == "assistant")
    && IsList(Member(message, "content")) && (forall b | b in ContentItems(message) :: BlockAccepted(role, b))
    && (includeThinking && role == "assistant" && IsTrue(thinking) ==>
          thinking.value.Arr? && forall i | 0 <= i < |thinking.value.items| :: thinking.value.items[i].Obj?)
  }

  lemma {:induction false} OwnAccepted(py: Python, role: string, blocks: seq<Json>)
    ensures ContentBlocksOut(py, role, blocks).Ok? <==> forall b | b in blocks :: BlockAccepted(role, b)
    ensures ContentBlocksOut(py, role, blocks) != Err(InvalidRole)
  {
    if blocks != [] {
      var front, block := blocks[..|blocks|-1], blocks[|blocks|-1];
      assert blocks == front + [block];
      OwnAccepted(py, role, front);
      RefusedExactly(py, role, block);
    }
  }

  lemma LeadingAccepted(py: Python, role: string, thinking: Json)
    ensures Leading(py, role, thinking).Ok? <==>
      (role == "assistant" && IsTrue(Some(thinking)) ==>
         thinking.Arr? && forall i | 0 <= i < |thinking.items| :: thinking.items[i].Obj?)
    ensures Leading(py, role, thinking) != Err(InvalidRole)
  {
    match thinking
    case Arr(items) => ThinkingExactly(py, items);
    case Str(s) => ThinkingExactly(py, [thinking]);
    case _ =>
  }

  lemma MessageAcceptedExactly(py: Python, message: Json, includeThinking: bool)
    ensures MessageOut(py, message, includeThinking).Ok? <==> MessageAccepted(py, message, includeThinking)
    ensures MessageOut(py, message, includeThinking) == Err(InvalidRole) <==>
      message.Obj? && RoleOf(py, message) != "user" && RoleOf(py, message) != "assistant"
  {
    var thinking := if includeThinking then GetOr(message, "thinking_blocks", Null) else Null;
    OwnAccepted(py, RoleOf(py, message), ContentItems(message));
    LeadingAccepted(py, RoleOf(py, message), thinking);
  }

  lemma {:induction false} MessagesAt(py: Python, messages: seq<Json>, includeThinking: bool, i: nat)
    requires MessagesOut(py, messages, includeThinking).Ok? && i < |messages|
    ensures MessageOut(py, messages[i], includeThinking) == Ok(MessagesOut(py, messages, includeThinking).value[i])
  {
    if i < |messages| - 1 { MessagesAt(py, messages[..|messages|-1], includeThinking, i); }
  }

  // --- The whole build --------------------------------------------------------

  function RawMessages(request: Json): seq<Json> {
    match Member(request, "messages")
    case Some(Arr(messages)) => messages
    case _ => []
  }

  // A build goes on only with a list of messages, or with nothing to iterate over.
  lemma IteratedMessages(py: Python, request: Json, includeThinking: bool)
    requires Iterate(MessagesOf(request)).Ok?
    requires MessagesOut(py, Iterate(MessagesOf(request)).value, includeThinking).Ok?
    ensures Iterate(MessagesOf(request)).value == RawMessages(request)
    ensures MessagesOf(request).Truthy() || RawMessages(request) == []
  {
    var raw := Iterate(MessagesOf(request)).value;
    if raw != [] { MessagesAt(py, raw, includeThinking, 0); }
  }

  // A successful build, seen as the results of its steps.
  ghost predicate Steps(py: Python, request: Json, caps: Capabilities, out: ConverseRequest) {
    exists budget ::
      (&& RequestedBudget(py, request, caps) == Ok(budget)
       && (if budget == None then !out.reasoningEnabled
           else HasReasoningContinuity(RawMessages(request)) == Ok(out.reasoningEnabled))
       && out.thinkingBudget == (if out.reasoningEnabled then budget else None)
       && MessagesOut(py, RawMessages(request), out.reasoningEnabled) == Ok(out.messages)
       && BuildToolConfig(py, request, out.reasoningEnabled) == Ok(out.toolConfig))
  }

  lemma BuildSteps(py: Python, request: Json, caps: Capabilities)
    requires Build(py, request, caps).Ok?
    ensures Steps(py, request, caps, Build(py, request, caps).value)
  {
    var out := Build(py, request, caps).value;
    var budget := RequestedBudget(py, request, caps).value;
    assert ReasoningEnabled(request, budget) == Ok(out.reasoningEnabled);
    IteratedMessages(py, request, out.reasoningEnabled);
  }

  lemma MessagesRender(py: Python, raw: seq<Json>, includeThinking: bool)
    requires MessagesOut(py, raw, includeThinking).Ok?
    ensures forall i | 0 <= i < |raw| ::
              Renders(py, raw[i], MessagesOut(py, raw, includeThinking).value[i], includeThinking)
  {
    var out := MessagesOut(py, raw, includeThinking).value;
    forall i | 0 <= i < |raw| ensures Renders(py, raw[i], out[i], includeThinking) {
      MessagesAt(py, raw, includeThinking, i);
      MessageRenders(py, raw[i], includeThinking);
    }
  }

  lemma NoneShown(py: Python, message: Json, out: OutMessage)
    requires Renders(py, message, out, false)
    ensures NoReasoning(out.content)
  {
    assert RendersAfter(py, message, out, false, 0);
    assert out.content[0..] == out.content;
  }

  // Every message is carried over, in order; the thinking of assistants is carried exactly when reasoning goes ahead.
  lemma ConversationIsKept(py: Python, request: Json, caps: Capabilities)
    requires Build(py, request, caps).Ok?
    ensures var out, raw := Build(py, request, caps).value, RawMessages(request);
      |out.messages| == |raw| && forall i | 0 <= i < |raw| :: Renders(py, raw[i], out.messages[i], out.reasoningEnabled)
  {
    BuildSteps(py, request, caps);
    MessagesRender(py, RawMessages(request), Build(py, request, caps).value.reasoningEnabled);
  }

  // Without reasoning the request asks for none and shows none.
  lemma DisabledMeansNone(py: Python, request: Json, caps: Capabilities)
    requires Build(py, request, caps).Ok? && !Build(py, request, caps).value.reasoningEnabled
    ensures Build(py, request, caps).value.thinkingBudget == None
    ensures var messages := Build(py, request, caps).value.messages;
      forall i | 0 <= i < |messages| :: NoReasoning(messages[i].content)
  {
    var messages := Build(py, request, caps).value.messages;
    BuildSteps(py, request, caps);
    ConversationIsKept(py, request, caps);
    forall i | 0 <= i < |messages| ensures NoReasoning(messages[i].content) {
      NoneShown(py, RawMessages(request)[i], messages[i]);
    }
  }

  predicate IsGiven(request: Json, key: string) { Member(request, key) != None && Member(request, key) != Some(Null) }

  // An assistant message with a list of blocks that has thinking blocks along if it uses a tool, or any other message.
  predicate KeepsContinuity(message: Json) {
    Member(message, "role") == Some(Json.Str("assistant")) ==>
      && IsList(Member(message, "content"))
      && ((exists b | b in ContentItems(message) :: HasType(b, "tool_use")) ==>
            IsTrue(Member(message, "thinking_blocks")))
  }

  lemma BreaksExactly(message: Json)
    ensures BreaksContinuity(message) == Ok(false) <==> KeepsContinuity(message)
  {
    var items := ContentItems(message);
    assert forall i | 0 <= i < |items| :: items[i] in items && (IsToolUse(items[i]) <==> HasType(items[i], "tool_use"));
  }

  ghost predicate UsesTool(out: OutMessage) { exists j | 0 <= j < |out.content| :: out.content[j].OutToolUse? }

  lemma PlainRole(py: Python, message: Json)
    requires PrintsPlainly(py) && py.Str(GetOr(message, "role", Json.Str(""))) == "assistant"
    ensures IsAssistant(message)
  {
    assert "assistant" in SUPPORTED_MESSAGE_ROLES;
  }

  lemma OwnToolUse(py: Python, message: Json, out: OutMessage, includeThinking: bool, lead: nat, j: nat)
    requires RendersAfter(py, message, out, includeThinking, lead)
    requires lead <= j < |out.content| && out.content[j].OutToolUse?
    ensures out.role == "assistant" && AnyToolUse(ContentItems(message))
  {
    var block := ContentItems(message)[j - lead];
    assert BlockSays(py, out.role, block, out.content[lead + (j - lead)]);
    assert IsToolUse(block);
  }

  // Only an assistant uses tools, and the use was in its own content.
  lemma ToolUseSource(py: Python, message: Json, out: OutMessage, includeThinking: bool)
    requires PrintsPlainly(py) && Renders(py, message, out, includeThinking) && UsesTool(out)
    ensures IsAssistant(message)
    ensures AnyToolUse(ContentItems(message))
  {
    var lead: nat :| RendersAfter(py, message, out, includeThinking, lead);
    var j :| 0 <= j < |out.content| && out.content[j].OutToolUse?;
    assert forall k | 0 <= k < lead :: out.content[..lead][k] == out.content[k];
    OwnToolUse(py, message, out, includeThinking, lead, j);
    PlainRole(py, message);
  }

  lemma ContinuousToolUse(py: Python, message: Json, out: OutMessage)
    requires PrintsPlainly(py) && MessageOut(py, message, true) == Ok(out) && UsesTool(out)
    requires BreaksContinuity(message) == Ok(false)
    ensures ThinkingItems(message) != []
  {
    MessageRenders(py, message, true);
    ToolUseSource(py, message, out, true);
    ToolUseNeedsThinking(message);
    AcceptedThinking(py, message);
  }

  lemma ToolUseNeedsThinking(message: Json)
    requires IsAssistant(message) && BreaksContinuity(message) == Ok(false)
    requires AnyToolUse(ContentItems(message))
    ensures GetOr(message, "thinking_blocks", Null).Truthy()
  {
    assert CoerceBlocks(message.Get("content")) == Ok(ContentItems(message));
  }

  // A build accepts the thinking of an assistant only as a list.
  lemma AcceptedThinking(py: Python, message: Json)
    requires IsAssistant(message) && MessageOut(py, message, true).Ok?
    requires GetOr(message, "thinking_blocks", Null).Truthy()
    ensures ThinkingItems(message) != []
  {
    LeadingShape(py, "assistant", GetOr(message, "thinking_blocks", Null));
  }

  lemma EnabledSteps(py: Python, request: Json, caps: Capabilities, out: ConverseRequest)
    requires Steps(py, request, caps, out)
    ensures out.reasoningEnabled <==>
      && caps.reasoning
      && (IsGiven(request, "thinking") || IsGiven(request, "reasoning_effort"))
      && forall i | 0 <= i < |RawMessages(request)| :: KeepsContinuity(RawMessages(request)[i])
    ensures out.reasoningEnabled ==> out.thinkingBudget.Some? && out.thinkingBudget.value >= 1024
  {
    ContinuityMeans(RawMessages(request));
    forall i | 0 <= i < |RawMessages(request)|
      ensures BreaksContinuity(RawMessages(request)[i]) == Ok(false) <==> KeepsContinuity(RawMessages(request)[i])
    {
      BreaksExactly(RawMessages(request)[i]);
    }
  }

  lemma ContinuousSteps(py: Python, raw: seq<Json>, messages: seq<OutMessage>)
    requires PrintsPlainly(py) && MessagesOut(py, raw, true) == Ok(messages)
    requires forall i | 0 <= i < |raw| :: KeepsContinuity(raw[i])
    ensures forall i | 0 <= i < |raw| && UsesTool(messages[i]) :: ThinkingItems(raw[i]) != []
  {
    forall i | 0 <= i < |raw| && UsesTool(messages[i]) ensures ThinkingItems(raw[i]) != [] {
      MessagesAt(py, raw, true, i);
      BreaksExactly(raw[i]);
      ContinuousToolUse(py, raw[i], messages[i]);
    }
  }

  // Reasoning goes ahead exactly when it is asked for and supported and no message breaks continuity.
  lemma EnabledExactly(py: Python, request: Json, caps: Capabilities)
    requires Build(py, request, caps).Ok?
    ensures Build(py, request, caps).value.reasoningEnabled <==>
      && caps.reasoning
      && (IsGiven(request, "thinking") || IsGiven(request, "reasoning_effort"))
      && forall i | 0 <= i < |RawMessages(request)| :: KeepsContinuity(RawMessages(request)[i])
  {
    BuildSteps(py, request, caps);
    EnabledSteps(py, request, caps, Build(py, request, caps).value);
  }

  // With reasoning the budget is at least the minimum, no tool is forced, and each assistant message that uses a tool
  // came with a non-empty list of thinking blocks.
  lemma EnabledMeansContinuous(py: Python, request: Json, caps: Capabilities)
    requires PrintsPlainly(py)
    requires Build(py, request, caps).Ok? && Build(py, request, caps).value.reasoningEnabled
    ensures var out, raw := Build(py, request, caps).value, RawMessages(request);
      && caps.reasoning
      && out.thinkingBudget.Some? && out.thinkingBudget.value >= 1024
      && (out.toolConfig.Some? ==> out.toolConfig.value.choice in {None, Some(AutoChoice)})
      && |out.messages| == |raw|
      && forall i | 0 <= i < |raw| && UsesTool(out.messages[i]) :: ThinkingItems(raw[i]) != []
  {
    BuildSteps(py, request, caps);
    EnabledSteps(py, request, caps, Build(py, request, caps).value);
    ContinuousSteps(py, RawMessages(request), Build(py, request, caps).value.messages);
  }

  // The budget asked for by number, if any.
  function ExplicitBudget(request: Json): Option<Json> {
    if IsGiven(request, "thinking") && IsGiven(Member(request, "thinking").value, "budget_tokens")
    then Member(Member(request, "thinking").value, "budget_tokens")
    else None
  }

  predicate BudgetSays(py: Python, request: Json, budget: int) {
    var explicit, effort := ExplicitBudget(request), Member(request, "reasoning_effort");
    if explicit.Some? then
      var asked := py.int_(explicit.value);
      asked.Some? && budget == (if asked.value > 1024 then asked.value else 1024)
    else if effort == Some(Json.Str("low")) then budget == 1024
    else if effort == Some(Json.Str("high")) then budget == 8192
    else if effort.Some? && effort.value.Str? then budget == 4096
    else budget == 1024
  }

  // An explicit budget is raised to the minimum and wins over an effort; an effort alone means its own budget.
  lemma BudgetFollowsRequest(py: Python, request: Json, caps: Capabilities)
    requires Build(py, request, caps).Ok? && Build(py, request, caps).value.reasoningEnabled
    ensures Build(py, request, caps).value.thinkingBudget.Some?
    ensures BudgetSays(py, request, Build(py, request, caps).value.thinkingBudget.value)
  {
    BuildSteps(py, request, caps);
  }

  lemma ReasoningAhead(py: Python, message: Json, out: OutMessage)
    requires PrintsPlainly(py) && Renders(py, message, out, true) && UsesTool(out)
    ensures !NoReasoning(out.content) <==> AnyThinking(ThinkingItems(message))
  {
    ToolUseSource(py, message, out, true);
    var lead: nat :| RendersAfter(py, message, out, true, lead);
    CountPositive(ThinkingItems(message));
    if lead > 0 {
      assert out.content[..lead][0].OutReasoning?;
    } else {
      assert out.content[0..] == out.content;
    }
  }

  // Whether a tool use goes out with reasoning before it: exactly when some thinking block has the type "thinking".
  lemma ReasoningPrecedesToolUse(py: Python, request: Json, caps: Capabilities, i: nat)
    requires PrintsPlainly(py)
    requires Build(py, request, caps).Ok? && Build(py, request, caps).value.reasoningEnabled
    requires i < |RawMessages(request)| == |Build(py, request, caps).value.messages|
    requires UsesTool(Build(py, request, caps).value.messages[i])
    ensures !NoReasoning(Build(py, request, caps).value.messages[i].content) <==>
            AnyThinking(ThinkingItems(RawMessages(request)[i]))
  {
    ConversationIsKept(py, request, caps);
    ReasoningAhead(py, RawMessages(request)[i], Build(py, request, caps).value.messages[i]);
  }

  lemma {:induction false} CountPositive(blocks: seq<Json>)
    ensures ThinkingCount(blocks) > 0 <==> AnyThinking(blocks)
  {
    if blocks != [] {
      var front := blocks[..|blocks|-1];
      CountPositive(front);
      assert forall k | 0 <= k < |front| :: front[k] == blocks[k];
    }
  }

  // An assistant turn whose only thinking block is of another type: reasoning goes ahead and the tool use goes out
  // bare.
  function RedactedTurn(): Json {
    Obj(map["role" := Json.Str("assistant"),
            "thinking_blocks" := Arr([Obj(map["type" := Json.Str("redacted_thinking")])]),
            "content" := Arr([Obj(map["type" := Json.Str("tool_use"), "id" := Json.Str("toolu_1"),
                                      "name" := Json.Str("lookup")])])])
  }

  lemma SingleThinking(py: Python, block: Json)
    ensures ThinkingOut(py, [block]) == ThinkingBlockOut(py, block)
  {
    assert [block][..0] == [];
    assert ThinkingOut(py, [block][..0]) == Ok([]);
    var out := ThinkingBlockOut(py, block);
    assert out.Ok? ==> [] + out.value == out.value;
  }

  lemma SingleContent(py: Python, role: string, block: Json)
    requires ContentBlockOut(py, role, block).Ok?
    ensures ContentBlocksOut(py, role, [block]) == Ok([ContentBlockOut(py, role, block).value])
  {
    assert [block][..0] == [];
    assert ContentBlocksOut(py, role, [block][..0]) == Ok([]);
    var own := ContentBlockOut(py, role, block).value;
    assert [] + [own] == [own];
  }

  lemma RedactedTurnOut(py: Python)
    ensures MessageOut(py, RedactedTurn(), true) ==
            Ok(OutMessage("assistant", [OutToolUse("toolu_1", "lookup", Obj(map[]))]))
    ensures BreaksContinuity(RedactedTurn()) == Ok(false)
  {
    var turn := RedactedTurn();
    var use, redacted := turn.fields["content"].items[0], turn.fields["thinking_blocks"].items[0];
    assert ContentBlockOut(py, "assistant", use) == Ok(OutToolUse("toolu_1", "lookup", Obj(map[])));
    SingleThinking(py, redacted);
    SingleContent(py, "assistant", use);
  }

  lemma SingleMessage(py: Python, message: Json)
    requires MessageOut(py, message, true).Ok?
    ensures MessagesOut(py, [message], true) == Ok([MessageOut(py, message, true).value])
    ensures HasReasoningContinuity([message]) == Ok(true) <==> BreaksContinuity(message) == Ok(false)
  {
    assert [message][..0] == [] && [message][0] == message;
    assert MessagesOut(py, [message][..0], true) == Ok([]);
    var own := MessageOut(py, message, true).value;
    assert [] + [own] == [own];
    ContinuityMeans([message]);
  }

  function RedactedRequest(): Json {
    Obj(map["reasoning_effort" := Json.Str("low"), "messages" := Arr([RedactedTurn()])])
  }

  lemma RedactedRequestParts(py: Python, caps: Capabilities)
    requires caps.reasoning
    ensures RequestedBudget(py, RedactedRequest(), caps) == Ok(Some(1024))
    ensures MessagesOf(RedactedRequest()) == Arr([RedactedTurn()])
    ensures SystemOut(py, GetOr(RedactedRequest(), "system", Null)) == Ok([]) && BuildInference(RedactedRequest()).Ok?
    ensures BuildToolConfig(py, RedactedRequest(), true) == Ok(None)
    ensures BuildOutputConfig(RedactedRequest(), caps) == Ok(None)
  {
  }

  lemma BareToolUse(py: Python, caps: Capabilities)
    requires caps.reasoning
    ensures var built := Build(py, RedactedRequest(), caps);
      && built.Ok? && built.value.reasoningEnabled
      && built.value.messages == [OutMessage("assistant", [OutToolUse("toolu_1", "lookup", Obj(map[]))])]
  {
    RedactedRequestParts(py, caps);
    RedactedTurnOut(py);
    SingleMessage(py, RedactedTurn());
  }
}
