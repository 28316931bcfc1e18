// A Bedrock answer parsed into the Anthropic form and echoed back as an assistant turn of the next request.
module RoundTrip {
  import opened Wrappers
  import opened JsonValues
  import opened Converse
  import ResponseParser
  import opened RequestBuilder
  import opened ReasoningGating

  // --- The turn a client sends back -------------------------------------------

  function EncodeContent(b: ContentBlock): Json {
    match b
    case Text(t) => Obj(map["type" := Json.Str("text"), "text" := Json.Str(t)])
    case ToolUse(id, name, input) =>
      Obj(map["type" := Json.Str("tool_use"), "id" := Json.Str(id), "name" := Json.Str(name), "input" := input])
  }

  function EncodeThinking(t: ThinkingBlock): Json {
    var plain := map["type" := Json.Str("thinking"), "thinking" := Json.Str(t.thinking)];
    Obj(match t.signature case None => plain case Some(s) => plain["signature" := Json.Str(s)])
  }

  function EncodeContents(bs: seq<ContentBlock>): (r: seq<Json>)
    ensures |r| == |bs|
  {
    seq(|bs|, i requires 0 <= i < |bs| => EncodeContent(bs[i]))
  }

  function EncodeThinkings(ts: seq<ThinkingBlock>): (r: seq<Json>)
    ensures |r| == |ts|
  {
    seq(|ts|, i requires 0 <= i < |ts| => EncodeThinking(ts[i]))
  }

  // The parsed answer as a message; thinking_blocks only when there are some.
  function Echo(content: seq<BedrockBlock>): Json {
    var thinking := ResponseParser.Thinkings(content);
    var turn := map["role" := Json.Str("assistant"),
                    "content" := Arr(EncodeContents(ResponseParser.Contents(content)))];
    Obj(if thinking == [] then turn else turn["thinking_blocks" := Arr(EncodeThinkings(thinking))])
  }

  // --- Request blocks read as answer blocks -----------------------------------

  function Back(o: OutBlock): BedrockBlock {
    match o
    case OutText(t) => BText(t)
    case OutToolUse(id, name, input) => BToolUse(Some(id), Some(name), Some(input))
    case OutReasoning(t, None) => BReasoning(Reasoning(Some(t), None))
    case OutReasoning(t, Some(s)) => BReasoning(Reasoning(Some(t), if s.Str? then Some(s.s) else None))
    case _ => BOther
  }

  function BackAll(os: seq<OutBlock>): (r: seq<BedrockBlock>)
    ensures |r| == |os|
  {
    seq(|os|, i requires 0 <= i < |os| => Back(os[i]))
  }

  // --- What survives ----------------------------------------------------------

  // Blocks the round trip gives back unchanged.
  predicate Lossless(b: BedrockBlock) {
    match b
    case BText(_) => true
    case BToolUse(id, name, input) => id.Some? && name.Some? && input.Some?
    case BReasoning(r) => r.text.Some? && r.signature != Some("")
    case BOther => false
  }

  // A block with its defaults filled in; unknown kinds are dropped.
  function Canon(b: BedrockBlock): seq<BedrockBlock> {
    match b
    case BText(_) => [b]
    case BToolUse(Some(id), Some(name), input) => [BToolUse(Some(id), Some(name), Some(input.GetOr(Obj(map[]))))]
    case BReasoning(r) =>
      [BReasoning(Reasoning(Some(r.text.GetOr("")), if r.signature == Some("") then None else r.signature))]
    case _ => []
  }

  function Select(bs: seq<BedrockBlock>, reasoning: bool): seq<BedrockBlock> {
    if bs == [] then []
    else
      Select(bs[..|bs|-1], reasoning) + (if bs[|bs|-1].BReasoning? == reasoning then Canon(bs[|bs|-1]) else [])
  }

  predicate ReasoningFirst(bs: seq<BedrockBlock>) {
    forall i, j | 0 <= i < j < |bs| && bs[j].BReasoning? :: bs[i].BReasoning?
  }

  // --- Block lists ------------------------------------------------------------

  function ContentForm(c: ContentBlock): OutBlock {
    match c
    case Text(t) => OutText(t)
    case ToolUse(id, name, input) => OutToolUse(id, name, input)
  }

  function SignatureForm(signature: Option<string>): Option<Json> {
    if signature.Some? && signature.value != "" then Some(Json.Str(signature.value)) else None
  }

  function ThinkingForm(t: ThinkingBlock): OutBlock { OutReasoning(t.thinking, SignatureForm(t.signature)) }

  lemma ContentEcho(py: Python, c: ContentBlock)
    ensures ContentBlockOut(py, "assistant", EncodeContent(c)) == Ok(ContentForm(c))
  {
  }

  lemma ThinkingEcho(py: Python, t: ThinkingBlock)
    ensures ThinkingBlockOut(py, EncodeThinking(t)) == Ok([ThinkingForm(t)])
  {
    assert EncodeThinking(t).Get("thinking") == Some(Json.Str(t.thinking));
    assert EncodeThinking(t).Get("signature") ==
           (match t.signature case None => None case Some(s) => Some(Json.Str(s)));
  }

  function ContentForms(cs: seq<ContentBlock>): (r: seq<OutBlock>)
    ensures |r| == |cs|
  {
    seq(|cs|, i requires 0 <= i < |cs| => ContentForm(cs[i]))
  }

  function ThinkingForms(ts: seq<ThinkingBlock>): (r: seq<OutBlock>)
    ensures |r| == |ts|
  {
    seq(|ts|, i requires 0 <= i < |ts| => ThinkingForm(ts[i]))
  }

  // Content echoes block for block.
  lemma {:induction false} ContentsEcho(py: Python, cs: seq<ContentBlock>)
    ensures ContentBlocksOut(py, "assistant", EncodeContents(cs)) == Ok(ContentForms(cs))
  {
    var items := EncodeContents(cs);
    if cs != [] {
      var front := cs[..|cs|-1];
      ContentsEcho(py, front);
      ContentEcho(py, cs[|cs|-1]);
      assert items[..|items|-1] == EncodeContents(front);
      assert ContentForms(cs) == ContentForms(front) + [ContentForm(cs[|cs|-1])];
    }
  }

  lemma {:induction false} ThinkingsEcho(py: Python, ts: seq<ThinkingBlock>)
    ensures ThinkingOut(py, EncodeThinkings(ts)) == Ok(ThinkingForms(ts))
  {
    var items := EncodeThinkings(ts);
    if ts != [] {
      var front := ts[..|ts|-1];
      ThinkingsEcho(py, front);
      ThinkingEcho(py, ts[|ts|-1]);
      assert items[..|items|-1] == EncodeThinkings(front);
      assert ThinkingForms(ts) == ThinkingForms(front) + [ThinkingForm(ts[|ts|-1])];
    }
  }

  // What the parser keeps of an answer, read back.
  lemma {:induction false} ContentsBack(bs: seq<BedrockBlock>)
    ensures BackAll(ContentForms(ResponseParser.Contents(bs))) == Select(bs, false)
  {
    if bs != [] {
      var front, last := bs[..|bs|-1], bs[|bs|-1];
      var earlier, own := ResponseParser.Contents(front), ResponseParser.ContentOf(last);
      ContentsBack(front);
      assert ContentForms(earlier + own) == ContentForms(earlier) + ContentForms(own);
      BackConcat(ContentForms(earlier), ContentForms(own));
      assert BackAll(ContentForms(own)) == if last.BReasoning? then [] else Canon(last);
    }
  }

  lemma {:induction false} ThinkingsBack(bs: seq<BedrockBlock>)
    ensures BackAll(ThinkingForms(ResponseParser.Thinkings(bs))) == Select(bs, true)
  {
    if bs != [] {
      var front, last := bs[..|bs|-1], bs[|bs|-1];
      var earlier, own := ResponseParser.Thinkings(front), ResponseParser.ThinkingOf(last);
      ThinkingsBack(front);
      assert ThinkingForms(earlier + own) == ThinkingForms(earlier) + ThinkingForms(own);
      BackConcat(ThinkingForms(earlier), ThinkingForms(own));
      assert BackAll(ThinkingForms(own)) == if last.BReasoning? then Canon(last) else [];
    }
  }

  lemma BackConcat(a: seq<OutBlock>, b: seq<OutBlock>)
    ensures BackAll(a + b) == BackAll(a) + BackAll(b)
  {
  }

  // --- The round trip ---------------------------------------------------------

  lemma EchoFields(bs: seq<BedrockBlock>)
    ensures Echo(bs).Get("role") == Some(Json.Str("assistant"))
    ensures Echo(bs).Get("content") == Some(Arr(EncodeContents(ResponseParser.Contents(bs))))
    ensures GetOr(Echo(bs), "thinking_blocks", Null) ==
            if ResponseParser.Thinkings(bs) == [] then Null else Arr(EncodeThinkings(ResponseParser.Thinkings(bs)))
  {
  }

  lemma EchoLeading(py: Python, bs: seq<BedrockBlock>)
    ensures Leading(py, "assistant", GetOr(Echo(bs), "thinking_blocks", Null)) ==
            Ok(ThinkingForms(ResponseParser.Thinkings(bs)))
  {
    EchoFields(bs);
    ThinkingsEcho(py, ResponseParser.Thinkings(bs));
  }

  lemma AssistantTurn(py: Python, message: Json, items: seq<Json>, includeThinking: bool)
    requires message.Get("role") == Some(Json.Str("assistant")) && message.Get("content") == Some(Arr(items))
    requires ContentBlocksOut(py, "assistant", items).Ok?
    requires Leading(py, "assistant", GetOr(message, "thinking_blocks", Null)).Ok?
    ensures MessageOut(py, message, includeThinking) == Ok(OutMessage("assistant",
      (if includeThinking then Leading(py, "assistant", GetOr(message, "thinking_blocks", Null)).value else []) +
      ContentBlocksOut(py, "assistant", items).value))
  {
    assert py.Str(GetOr(message, "role", Json.Str(""))) == "assistant";
    assert CoerceBlocks(message.Get("content")) == Ok(items);
  }

  // Echoing any answer succeeds. With thinking included it gives the answer's reasoning blocks and then the others,
  // each group in the order of the answer; without, only the others.
  lemma EchoIsStablePartition(py: Python, bs: seq<BedrockBlock>, includeThinking: bool)
    ensures var out := MessageOut(py, Echo(bs), includeThinking);
      out.Ok? && out.value.role == "assistant" &&
      BackAll(out.value.content) == (if includeThinking then Select(bs, true) else []) + Select(bs, false)
  {
    var contents, thinking := ResponseParser.Contents(bs), ResponseParser.Thinkings(bs);
    EchoFields(bs);
    ContentsEcho(py, contents);
    EchoLeading(py, bs);
    AssistantTurn(py, Echo(bs), EncodeContents(contents), includeThinking);
    ContentsBack(bs);
    ThinkingsBack(bs);
    BackConcat(ThinkingForms(thinking), ContentForms(contents));
    BackConcat([], ContentForms(contents));
  }

  lemma {:induction false} SelectIsLossless(bs: seq<BedrockBlock>, reasoning: bool)
    ensures forall i | 0 <= i < |Select(bs, reasoning)| ::
      Lossless(Select(bs, reasoning)[i]) && Select(bs, reasoning)[i].BReasoning? == reasoning
  {
    if bs != [] { SelectIsLossless(bs[..|bs|-1], reasoning); }
  }

  lemma SelectSnoc(front: seq<BedrockBlock>, last: BedrockBlock, reasoning: bool)
    ensures Select(front + [last], reasoning) ==
            Select(front, reasoning) + (if last.BReasoning? == reasoning then Canon(last) else [])
  {
    assert (front + [last])[..|front + [last]|-1] == front;
  }

  lemma {:induction false} SelectSplits(bs: seq<BedrockBlock>)
    requires (forall i | 0 <= i < |bs| :: Lossless(bs[i])) && ReasoningFirst(bs)
    ensures Select(bs, true) + Select(bs, false) == bs
    ensures bs != [] && bs[|bs|-1].BReasoning? ==> Select(bs, false) == []
  {
    if bs != [] {
      var front, last := bs[..|bs|-1], bs[|bs|-1];
      assert ReasoningFirst(front) && front + [last] == bs;
      assert last.BReasoning? && front != [] ==> bs[|front|-1].BReasoning?;
      SelectSplits(front);
      LosslessIsCanon(last);
      SelectSnoc(front, last, true);
      SelectSnoc(front, last, false);
      assert last.BReasoning? ==> Select(front, false) == [];
    }
  }

  lemma LosslessIsCanon(b: BedrockBlock)
    requires Lossless(b)
    ensures Canon(b) == [b]
  {
  }

  // The echo is the answer itself exactly when every block is one the round trip keeps and reasoning came first.
  lemma EchoIsExact(py: Python, bs: seq<BedrockBlock>)
    ensures MessageOut(py, Echo(bs), true).Ok?
    ensures BackAll(MessageOut(py, Echo(bs), true).value.content) == bs <==>
            (forall i | 0 <= i < |bs| :: Lossless(bs[i])) && ReasoningFirst(bs)
  {
    EchoIsStablePartition(py, bs, true);
    SelectIsLossless(bs, true);
    SelectIsLossless(bs, false);
    if (forall i | 0 <= i < |bs| :: Lossless(bs[i])) && ReasoningFirst(bs) {
      SelectSplits(bs);
    }
  }

  predicate HasToolUse(cs: seq<ContentBlock>) { exists i | 0 <= i < |cs| :: cs[i].ToolUse? }

  predicate UsedTool(bs: seq<BedrockBlock>) {
    exists i | 0 <= i < |bs| :: bs[i].BToolUse? && ResponseParser.Complete(bs[i])
  }

  predicate Reasoned(bs: seq<BedrockBlock>) { exists i | 0 <= i < |bs| :: bs[i].BReasoning? }

  lemma HasToolUseConcat(a: seq<ContentBlock>, b: seq<ContentBlock>)
    ensures HasToolUse(a + b) <==> HasToolUse(a) || HasToolUse(b)
  {
    if i :| 0 <= i < |a| && a[i].ToolUse? { assert (a + b)[i].ToolUse?; }
    if i :| 0 <= i < |b| && b[i].ToolUse? { assert (a + b)[|a| + i].ToolUse?; }
  }

  lemma KindsSnoc(front: seq<BedrockBlock>, last: BedrockBlock)
    ensures UsedTool(front + [last]) <==> UsedTool(front) || (last.BToolUse? && ResponseParser.Complete(last))
    ensures Reasoned(front + [last]) <==> Reasoned(front) || last.BReasoning?
  {
    var all := front + [last];
    assert all[|front|] == last && forall i | 0 <= i < |front| :: all[i] == front[i];
  }

  lemma {:induction false} EchoedKinds(bs: seq<BedrockBlock>)
    ensures HasToolUse(ResponseParser.Contents(bs)) <==> UsedTool(bs)
    ensures ResponseParser.Thinkings(bs) != [] <==> Reasoned(bs)
  {
    if bs != [] {
      var front, last := bs[..|bs|-1], bs[|bs|-1];
      assert bs == front + [last];
      EchoedKinds(front);
      KindsSnoc(front, last);
      HasToolUseConcat(ResponseParser.Contents(front), ResponseParser.ContentOf(last));
      assert HasToolUse(ResponseParser.ContentOf(last)) <==> last.BToolUse? && ResponseParser.Complete(last) by {
        if last.BToolUse? && ResponseParser.Complete(last) { assert ResponseParser.ContentOf(last)[0].ToolUse?; }
      }
    }
  }

  lemma ToolUsesEncoded(cs: seq<ContentBlock>)
    ensures AnyToolUse(EncodeContents(cs)) <==> HasToolUse(cs)
  {
    var items := EncodeContents(cs);
    assert forall i | 0 <= i < |items| :: IsToolUse(items[i]) <==> cs[i].ToolUse?;
    if i :| 0 <= i < |cs| && cs[i].ToolUse? { assert IsToolUse(items[i]); }
  }

  // An echoed answer keeps reasoning going exactly when it used no tool or reasoned somewhere.
  lemma EchoContinuity(bs: seq<BedrockBlock>)
    ensures BreaksContinuity(Echo(bs)) == Ok(false) <==>
            !UsedTool(bs) || Reasoned(bs)
  {
    EchoedKinds(bs);
    ToolUsesEncoded(ResponseParser.Contents(bs));
    EchoBreaks(bs);
  }

  lemma EchoBreaks(bs: seq<BedrockBlock>)
    ensures var items := EncodeContents(ResponseParser.Contents(bs));
      BreaksContinuity(Echo(bs)) == Ok(AnyToolUse(items) && ResponseParser.Thinkings(bs) == [])
  {
    EchoFields(bs);
  }
}
