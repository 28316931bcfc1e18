// What each block of a Converse request says, by its fields, against the block of the Anthropic request it came from.
module RequestMeaning {
  import opened Wrappers
  import opened JsonValues
  import opened InStep
  import opened RequestBuilder

  // --- Fields -----------------------------------------------------------------

  function Member(j: Json, key: string): Option<Json> {
    if j.Obj? && key in j.fields then Some(j.fields[key]) else None
  }

  function Printed(py: Python, j: Json): string { if j.Str? then j.s else py.str(j) }

  // The text of a field; empty without it.
  predicate TextIs(py: Python, j: Json, key: string, text: string) {
    if Member(j, key).Some? then text == Printed(py, Member(j, key).value) else text == ""
  }

  // The value of a field, or the default without it.
  predicate ValueIs(j: Json, key: string, default: Json, value: Json) {
    if Member(j, key).Some? then value == Member(j, key).value else value == default
  }

  predicate HasType(j: Json, kind: string) { Member(j, "type") == Some(Json.Str(kind)) }

  // Python's truth.
  predicate IsTrue(j: Option<Json>) {
    j.Some? && j.value !in {Null, Bool(false), Num(0.0), Json.Str(""), Arr([]), Obj(map[])}
  }

  // Content that is a list of blocks: nothing, a string as one block, or a list.
  predicate IsList(content: Option<Json>) {
    content.None? || content.value.Null? || content.value.Str? || content.value.Arr?
  }

  function Items(content: Option<Json>): seq<Json> {
    match content
    case Some(Str(s)) => [Json.Str(s)]
    case Some(Arr(items)) => items
    case _ => []
  }

  // --- Blocks -----------------------------------------------------------------

  predicate ResultSays(py: Python, block: Json, r: ResultBlock) {
    match r
    case ResultText(text) => block == Json.Str(text) || (HasType(block, "text") && TextIs(py, block, "text", text))
    case ResultJson(json) => HasType(block, "json") && ValueIs(block, "json", Obj(map[]), json)
  }

  predicate ResultAccepted(block: Json) { block.Str? || HasType(block, "text") || HasType(block, "json") }

  predicate ResultsSay(py: Python, blocks: seq<Json>, rs: seq<ResultBlock>) {
    |rs| == |blocks| && forall k | 0 <= k < |rs| :: ResultSays(py, blocks[k], rs[k])
  }

  predicate BlockSays(py: Python, role: string, block: Json, out: OutBlock) {
    match out
    case OutText(text) => block == Json.Str(text) || (HasType(block, "text") && TextIs(py, block, "text", text))
    case OutToolUse(id, name, input) =>
      && role == "assistant" && HasType(block, "tool_use")
      && TextIs(py, block, "id", id) && TextIs(py, block, "name", name)
      && ValueIs(block, "input", Obj(map[]), input)
    case OutToolResult(id, isError, content) =>
      && role == "user" && HasType(block, "tool_result")
      && TextIs(py, block, "tool_use_id", id) && (isError <==> IsTrue(Member(block, "is_error")))
      && IsList(Member(block, "content")) && ResultsSay(py, Items(Member(block, "content")), content)
    case OutMedia(kind, fields) =>
      && (kind == "image" || kind == "document") && HasType(block, kind)
      && fields == map k | k in block.fields && k != "type" :: block.fields[k]
    case OutReasoning(_, _) => false
  }

  // The blocks a message of this role may hold.
  predicate BlockAccepted(role: string, block: Json) {
    || block.Str? || HasType(block, "text") || HasType(block, "image") || HasType(block, "document")
    || (role == "assistant" && HasType(block, "tool_use"))
    || (role == "user" && HasType(block, "tool_result") && IsList(Member(block, "content"))
        && forall r | r in Items(Member(block, "content")) :: ResultAccepted(r))
  }

  lemma ResultExactly(py: Python, block: Json, r: ResultBlock)
    ensures ToolResultBlock(py, block) == Ok(r) <==> ResultSays(py, block, r)
    ensures ToolResultBlock(py, block).Ok? <==> ResultAccepted(block)
    ensures ToolResultBlock(py, block).Err? ==> ToolResultBlock(py, block) == Err(InvalidContent)
  {
  }

  lemma {:induction false} ResultsExactly(py: Python, blocks: seq<Json>, rs: seq<ResultBlock>)
    ensures ToolResultBlocks(py, blocks) == Ok(rs) <==> ResultsSay(py, blocks, rs)
  {
    if blocks != [] {
      var front, block := blocks[..|blocks|-1], blocks[|blocks|-1];
      if |rs| == |blocks| {
        ResultsExactly(py, front, rs[..|rs|-1]);
        ResultExactly(py, block, rs[|rs|-1]);
        assert rs == rs[..|rs|-1] + [rs[|rs|-1]];
        assert forall k | 0 <= k < |front| :: front[k] == blocks[k];
      } else if ToolResultBlocks(py, front).Ok? {
        ResultsExactly(py, front, ToolResultBlocks(py, front).value);
      }
    }
  }

  lemma {:induction false} ResultsAccepted(py: Python, blocks: seq<Json>)
    ensures ToolResultBlocks(py, blocks).Ok? <==> forall r | r in blocks :: ResultAccepted(r)
    ensures ToolResultBlocks(py, blocks).Err? ==> ToolResultBlocks(py, blocks) == Err(InvalidContent)
  {
    if blocks != [] {
      var front, block := blocks[..|blocks|-1], blocks[|blocks|-1];
      assert blocks == front + [block];
      ResultsAccepted(py, front);
      ResultExactly(py, block, ResultText(""));
    }
  }

  // A block goes out as exactly the block that says the same.
  lemma BlockExactly(py: Python, role: string, block: Json, out: OutBlock)
    ensures ContentBlockOut(py, role, block) == Ok(out) <==> BlockSays(py, role, block, out)
  {
    var items := Items(Member(block, "content"));
    if ToolResultBlocks(py, items).Ok? { ResultsExactly(py, items, ToolResultBlocks(py, items).value); }
    if out.OutToolResult? { ResultsExactly(py, items, out.content); }
    if block.Obj? {
      assert forall kind | HasType(block, kind) ::
          block.fields - {"type"} == map k | k in block.fields && k != "type" :: block.fields[k];
    }
  }

  // And it is refused exactly if it is none of the blocks the role may hold; as a Python error only for a type that
  // is a list or a mapping.
  lemma RefusedExactly(py: Python, role: string, block: Json)
    ensures ContentBlockOut(py, role, block).Ok? <==> BlockAccepted(role, block)
    ensures var kind := Member(block, "type");
      ContentBlockOut(py, role, block) == Err(TypeFault) <==> kind.Some? && (kind.value.Arr? || kind.value.Obj?)
    ensures ContentBlockOut(py, role, block).Err? ==>
      ContentBlockOut(py, role, block).error in {InvalidContent, TypeFault}
  {
    ResultsAccepted(py, Items(Member(block, "content")));
  }

  // --- Thinking ---------------------------------------------------------------

  predicate IsThinking(block: Json) { HasType(block, "thinking") }

  predicate ThinkingSays(py: Python, block: Json, out: OutBlock) {
    && out.OutReasoning? && TextIs(py, block, "thinking", out.text)
    && out.signature == (if IsTrue(Member(block, "signature")) then Member(block, "signature") else None)
  }

  function ThinkingSaysIn(py: Python): (Json, OutBlock) -> bool { (block, out) => ThinkingSays(py, block, out) }

  lemma OneThinking(py: Python, block: Json)
    ensures ThinkingBlockOut(py, block).Ok? <==> block.Obj?
    ensures ThinkingBlockOut(py, block).Ok? ==>
      var said := ThinkingBlockOut(py, block).value;
      if IsThinking(block) then |said| == 1 && ThinkingSays(py, block, said[0]) else said == []
  {
  }

  // The thinking blocks go out in order, one reasoning block each; blocks of another type are left out.
  lemma {:induction false} ThinkingExactly(py: Python, blocks: seq<Json>)
    ensures ThinkingOut(py, blocks).Ok? <==> forall i | 0 <= i < |blocks| :: blocks[i].Obj?
    ensures ThinkingOut(py, blocks).Err? ==> ThinkingOut(py, blocks) == Err(InvalidContent)
    ensures ThinkingOut(py, blocks).Ok? ==>
      Mirrors(blocks, ThinkingOut(py, blocks).value, IsThinking, ThinkingSaysIn(py))
  {
    if blocks != [] {
      var front, block := blocks[..|blocks|-1], blocks[|blocks|-1];
      ThinkingExactly(py, front);
      OneThinking(py, block);
      assert blocks == front + [block];
      if ThinkingOut(py, front).Ok? && block.Obj? {
        MirrorsSnoc(front, ThinkingOut(py, front).value, IsThinking, ThinkingSaysIn(py), block,
                    ThinkingBlockOut(py, block).value);
      }
    }
  }
}
