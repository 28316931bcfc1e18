// Vocabulary shared by the Bedrock Converse translators: stop reasons, usage, content blocks.
module Converse {
  import opened Wrappers
  import opened JsonValues

  const SUPPORTED_STOP_REASONS: set<string> := {"end_turn", "max_tokens", "stop_sequence", "tool_use"}

  // The provider's usage object; None stands for an absent or null counter.
  datatype RawUsage = RawUsage(
    inputTokens: Option<int>,
    outputTokens: Option<int>,
    totalTokens: Option<int>,
    cacheWriteInputTokens: Option<int>,
    cacheReadInputTokens: Option<int>,
    cacheDetails: Option<Json>)

  datatype Usage = Usage(
    inputTokens: int,
    outputTokens: int,
    totalTokens: int,
    cacheWriteInputTokens: int,
    cacheReadInputTokens: int,
    cacheDetails: Option<Json>)

  const ZERO_USAGE := Usage(0, 0, 0, 0, 0, None)

  function NormalizeUsage(raw: Option<RawUsage>): Usage {
    match raw
    case None => ZERO_USAGE
    case Some(u) =>
      Usage(u.inputTokens.GetOr(0), u.outputTokens.GetOr(0), u.totalTokens.GetOr(0),
            u.cacheWriteInputTokens.GetOr(0), u.cacheReadInputTokens.GetOr(0), u.cacheDetails)
  }

  // reasoningContent: the text inside reasoningText, if any, and the signature beside it.
  datatype Reasoning = Reasoning(text: Option<string>, signature: Option<string>)

  // A content block of a Bedrock assistant message.
  datatype BedrockBlock =
    | BText(text: string)
    | BToolUse(id: Option<string>, name: Option<string>, input: Option<Json>)
    | BReasoning(reasoning: Reasoning)
    | BOther

  // The Anthropic forms of the same content.
  datatype ContentBlock = Text(text: string) | ToolUse(id: string, name: string, input: Json)

  datatype ThinkingBlock = Thinking(thinking: string, signature: Option<string>)

  function MapStopReason(raw: Option<string>): Option<string> {
    match raw
    case None => None
    case Some(r) => if r in SUPPORTED_STOP_REASONS then Some(r) else Some("end_turn")
  }

  // --- What a client must be told ---------------------------------------------

  predicate IsStopReason(r: string) { r == "end_turn" || r == "max_tokens" || r == "stop_sequence" || r == "tool_use" }

  // The four stop reasons are passed on as they are; any other reads as the end of the turn.
  predicate StopSays(raw: string, told: string) { if IsStopReason(raw) then told == raw else told == "end_turn" }

  predicate CounterSays(raw: Option<int>, n: int) { if raw.Some? then n == raw.value else n == 0 }

  // Each counter under its own name, and zero for one that is missing.
  predicate UsageSays(raw: Option<RawUsage>, u: Usage) {
    if raw.None? then u == Usage(0, 0, 0, 0, 0, None)
    else
      && CounterSays(raw.value.inputTokens, u.inputTokens)
      && CounterSays(raw.value.outputTokens, u.outputTokens)
      && CounterSays(raw.value.totalTokens, u.totalTokens)
      && CounterSays(raw.value.cacheWriteInputTokens, u.cacheWriteInputTokens)
      && CounterSays(raw.value.cacheReadInputTokens, u.cacheReadInputTokens)
      && u.cacheDetails == raw.value.cacheDetails
  }
}
