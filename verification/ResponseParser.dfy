// parse_converse_response: the batch translation of a Bedrock response.
module ResponseParser {
  import opened Wrappers
  import opened JsonValues
  import opened Converse
  import opened InStep

  // A response as far as the parser reads it.
  datatype Response = Response(content: seq<BedrockBlock>, stopReason: Option<string>, usage: Option<RawUsage>)

  datatype Parsed = Parsed(
    content: seq<ContentBlock>,
    thinking: seq<ThinkingBlock>,
    providerReasoning: seq<Reasoning>,
    stopReason: Option<string>,
    rawStopReason: Option<string>,
    usage: Usage)

  // A required key was missing.
  datatype KeyError = KeyError

  function ContentOf(b: BedrockBlock): seq<ContentBlock> {
    match b
    case BText(t) => [Text(t)]
    case BToolUse(Some(id), Some(name), input) => [ToolUse(id, name, input.GetOr(Obj(map[])))]
    case _ => []
  }

  function ThinkingOf(b: BedrockBlock): seq<ThinkingBlock> {
    match b
    case BReasoning(r) => [Thinking(r.text.GetOr(""), r.signature)]
    case _ => []
  }

  function ReasoningOf(b: BedrockBlock): seq<Reasoning> {
    match b
    case BReasoning(r) => [r]
    case _ => []
  }

  predicate Complete(b: BedrockBlock) { b.BToolUse? ==> b.id.Some? && b.name.Some? }

  function Contents(bs: seq<BedrockBlock>): seq<ContentBlock> {
    if bs == [] then [] else Contents(bs[..|bs|-1]) + ContentOf(bs[|bs|-1])
  }

  function Thinkings(bs: seq<BedrockBlock>): seq<ThinkingBlock> {
    if bs == [] then [] else Thinkings(bs[..|bs|-1]) + ThinkingOf(bs[|bs|-1])
  }

  function Reasonings(bs: seq<BedrockBlock>): seq<Reasoning> {
    if bs == [] then [] else Reasonings(bs[..|bs|-1]) + ReasoningOf(bs[|bs|-1])
  }

  function RawStopReason(raw: Option<string>): Option<string> {
    if raw.Some? && raw.value !in SUPPORTED_STOP_REASONS then raw else None
  }

  // The parse of a response whose tool uses all carry an id and a name.
  function Parse(resp: Response): Parsed {
    Parsed(Contents(resp.content), Thinkings(resp.content), Reasonings(resp.content),
           MapStopReason(resp.stopReason), RawStopReason(resp.stopReason), NormalizeUsage(resp.usage))
  }

  // --- What the parse must say ------------------------------------------------

  predicate IsContent(b: BedrockBlock) { b.BText? || b.BToolUse? }

  predicate ContentSays(b: BedrockBlock, c: ContentBlock) {
    match c
    case Text(t) => b == BText(t)
    case ToolUse(id, name, input) =>
      && b.BToolUse? && b.id == Some(id) && b.name == Some(name)
      && input == (if b.input.Some? then b.input.value else Obj(map[]))
  }

  predicate IsReasoning(b: BedrockBlock) { b.BReasoning? }

  predicate ThinkingSays(b: BedrockBlock, t: ThinkingBlock) {
    && b.BReasoning? && t.signature == b.reasoning.signature
    && t.thinking == (if b.reasoning.text.Some? then b.reasoning.text.value else "")
  }

  predicate ReasoningSays(b: BedrockBlock, r: Reasoning) { b == BReasoning(r) }

  // Text and tool uses in order, reasoning in order in both of its forms, the stop reason with the raw one beside it
  // exactly when it is none of the four, and the usage.
  ghost predicate ParsedSays(resp: Response, p: Parsed) {
    && Mirrors(resp.content, p.content, IsContent, ContentSays)
    && Mirrors(resp.content, p.thinking, IsReasoning, ThinkingSays)
    && Mirrors(resp.content, p.providerReasoning, IsReasoning, ReasoningSays)
    && (if resp.stopReason.None? then p.stopReason.None? && p.rawStopReason.None?
        else
          && p.stopReason.Some? && StopSays(resp.stopReason.value, p.stopReason.value)
          && p.rawStopReason == (if IsStopReason(resp.stopReason.value) then None else resp.stopReason))
    && UsageSays(resp.usage, p.usage)
  }

  lemma OneContent(b: BedrockBlock)
    requires Complete(b)
    ensures if IsContent(b) then |ContentOf(b)| == 1 && ContentSays(b, ContentOf(b)[0]) else ContentOf(b) == []
  {
  }

  lemma {:induction false} ContentsMirror(bs: seq<BedrockBlock>)
    requires forall i | 0 <= i < |bs| :: Complete(bs[i])
    ensures Mirrors(bs, Contents(bs), IsContent, ContentSays)
  {
    if bs != [] {
      var front, b := bs[..|bs|-1], bs[|bs|-1];
      ContentsMirror(front);
      OneContent(b);
      MirrorsSnoc(front, Contents(front), IsContent, ContentSays, b, ContentOf(b));
      assert bs == front + [b];
    }
  }

  lemma {:induction false} ThinkingsMirror(bs: seq<BedrockBlock>)
    ensures Mirrors(bs, Thinkings(bs), IsReasoning, ThinkingSays)
    ensures Mirrors(bs, Reasonings(bs), IsReasoning, ReasoningSays)
  {
    if bs != [] {
      var front, b := bs[..|bs|-1], bs[|bs|-1];
      assert bs == front + [b];
      ThinkingsMirror(front);
      MirrorsSnoc(front, Thinkings(front), IsReasoning, ThinkingSays, b, ThinkingOf(b));
      MirrorsSnoc(front, Reasonings(front), IsReasoning, ReasoningSays, b, ReasoningOf(b));
    }
  }

  lemma ParseSays(resp: Response)
    requires forall b | b in resp.content :: Complete(b)
    ensures ParsedSays(resp, Parse(resp))
  {
    ContentsMirror(resp.content);
    ThinkingsMirror(resp.content);
  }

  // Nothing else says it: the parse is determined by what it has to say.
  lemma ParsedOnce(resp: Response, p: Parsed, q: Parsed)
    requires ParsedSays(resp, p) && ParsedSays(resp, q)
    ensures p == q
  {
    MirrorIsUnique(resp.content, p.content, q.content, IsContent, ContentSays);
    MirrorIsUnique(resp.content, p.thinking, q.thinking, IsReasoning, ThinkingSays);
    MirrorIsUnique(resp.content, p.providerReasoning, q.providerReasoning, IsReasoning, ReasoningSays);
  }

  method ParseConverseResponse(resp: Response) returns (out: Result<Parsed, KeyError>)
    ensures out.Ok? <==> forall b | b in resp.content && b.BToolUse? :: b.id.Some? && b.name.Some?
    ensures out.Ok? ==> out.value == Parse(resp) && ParsedSays(resp, out.value)
  {
    var content: seq<ContentBlock> := [];
    var thinking: seq<ThinkingBlock> := [];
    var reasoning: seq<Reasoning> := [];
    for i := 0 to |resp.content|
      invariant content == Contents(resp.content[..i])
      invariant thinking == Thinkings(resp.content[..i])
      invariant reasoning == Reasonings(resp.content[..i])
      invariant forall b | b in resp.content[..i] :: Complete(b)
    {
      var block := resp.content[i];
      assert resp.content[..i+1] == resp.content[..i] + [block];
      match block {
        case BText(text) => content := content + [Text(text)];
        case BToolUse(id, name, input) =>
          if id.None? || name.None? {
            assert block in resp.content && !Complete(block);
            return Err(KeyError);
          }
          content := content + [ToolUse(id.value, name.value, input.GetOr(Obj(map[])))];
        case BReasoning(r) =>
          reasoning := reasoning + [r];
          thinking := thinking + [Thinking(r.text.GetOr(""), r.signature)];
        case BOther =>
      }
    }
    assert resp.content[..|resp.content|] == resp.content;
    ParseSays(resp);
    out := Ok(Parsed(content, thinking, reasoning, MapStopReason(resp.stopReason),
                     RawStopReason(resp.stopReason), NormalizeUsage(resp.usage)));
  }
}
