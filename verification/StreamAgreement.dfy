// The streaming and the batch translation of one message agree, however the
// stream cuts the message into events.
module StreamAgreement {
  import opened Wrappers
  import opened JsonValues
  import opened Converse
  import opened ResponseParser
  import opened StreamDecoder
  import opened DecoderInvariants

  // --- The client's side of the stream ----------------------------------------

  datatype ClientBlock = ClientBlock(open: OpenBlock, text: string)

  datatype Client = Client(
    content: seq<ClientBlock>,
    stopReason: Option<string>,
    usage: Option<Usage>,
    stopped: bool,
    failed: bool)

  // A consumer that opens blocks in index order and appends each delta to its block.
  function ClientStep(c: Client, f: Frame): Client {
    match f
    case BlockStartFrame(index, block) =>
      if index == |c.content| then c.(content := c.content + [ClientBlock(block, "")]) else c.(failed := true)
    case DeltaFrame(index, kind, text) =>
      if 0 <= index < |c.content| && c.content[index].open.kind == kind
      then c.(content := c.content[index := c.content[index].(text := c.content[index].text + text)])
      else c.(failed := true)
    case MessageDeltaFrame(reason, usage) => c.(stopReason := Some(reason), usage := Some(usage))
    case MessageStopFrame => c.(stopped := true)
    case ErrorFrame(_) => c.(failed := true)
    case _ => c
  }

  function ReadFrames(fs: seq<Frame>): Client {
    if fs == [] then Client([], None, None, false, false)
    else ClientStep(ReadFrames(fs[..|fs|-1]), fs[|fs|-1])
  }

  lemma ReadOne(fs: seq<Frame>, f: Frame)
    ensures ReadFrames(fs + [f]) == ClientStep(ReadFrames(fs), f)
  {
    assert (fs + [f])[..|fs|] == fs;
  }

  lemma ReadTwo(fs: seq<Frame>, f: Frame, g: Frame)
    ensures ReadFrames(fs + [f, g]) == ClientStep(ClientStep(ReadFrames(fs), f), g)
  {
    assert fs + [f, g] == fs + [f] + [g];
    ReadOne(fs, f);
    ReadOne(fs + [f], g);
  }

  // --- Interleaved chunks -----------------------------------------------------

  predicate OfBlock(e: Event, i: int) {
    (e.BlockStart? || e.BlockDelta? || e.BlockStop?) && e.index == i
  }

  // The events of block i, in order.
  function Project(es: seq<Event>, i: int): seq<Event> {
    if es == [] then []
    else Project(es[..|es|-1], i) + if OfBlock(es[|es|-1], i) then [es[|es|-1]] else []
  }

  // The indices of the block starts, in order.
  function StartOrder(es: seq<Event>): seq<int> {
    if es == [] then []
    else StartOrder(es[..|es|-1]) + if es[|es|-1].BlockStart? then [es[|es|-1].index] else []
  }

  // A start, any number of deltas of the started kind, a stop.
  predicate IsChunk(chunk: seq<Event>) {
    && |chunk| >= 2 && chunk[0].BlockStart? && chunk[|chunk|-1].BlockStop?
    && forall k | 0 < k < |chunk| - 1 ::
         chunk[k].BlockDelta? && DeltaKind(chunk[k].delta) == Opened(chunk[0].start).kind
  }

  function ChunkText(chunk: seq<Event>): string {
    if chunk == [] then ""
    else ChunkText(chunk[..|chunk|-1]) + if chunk[|chunk|-1].BlockDelta? then DeltaText(chunk[|chunk|-1].delta) else ""
  }

  function ChunkAt(chunks: seq<seq<Event>>, i: int): seq<Event> { if 0 <= i < |chunks| then chunks[i] else [] }

  // es so far is an interleaving of beginnings of the chunks, whose blocks start in index order.
  ghost predicate Begins(es: seq<Event>, chunks: seq<seq<Event>>) {
    && (forall i :: Project(es, i) <= ChunkAt(chunks, i))
    && (forall k | 0 <= k < |StartOrder(es)| :: StartOrder(es)[k] == k)
    && (forall e | e in es :: !e.StreamException?)
  }

  // es interleaves exactly the chunks, starts the blocks in index order, has no exception,
  // and anywhere among the block events one messageStop and one metadata event.
  ghost predicate Interleaves(es: seq<Event>, chunks: seq<seq<Event>>, reason: Option<string>, raw: Option<RawUsage>) {
    && (forall c | c in chunks :: IsChunk(c))
    && (forall i :: Project(es, i) == ChunkAt(chunks, i))
    && (forall k | 0 <= k < |StartOrder(es)| :: StartOrder(es)[k] == k)
    && (forall e | e in es :: !e.StreamException?)
    && CountStopEvents(es) == 1 && CountMetadata(es) == 1
    && (forall e | e in es && e.MessageStop? :: e.reason == reason)
    && (forall e | e in es && e.Metadata? :: e.raw == raw)
  }

  function CountMetadata(es: seq<Event>): nat {
    if es == [] then 0 else CountMetadata(es[..|es|-1]) + if es[|es|-1].Metadata? then 1 else 0
  }

  lemma BeginsPrefix(es: seq<Event>, chunks: seq<seq<Event>>)
    requires es != [] && Begins(es, chunks)
    ensures Begins(es[..|es|-1], chunks)
  {
    var init := es[..|es|-1];
    assert StartOrder(init) <= StartOrder(es);
    forall i ensures Project(init, i) <= ChunkAt(chunks, i) {
      assert Project(init, i) <= Project(es, i) <= ChunkAt(chunks, i);
    }
  }

  // --- The invariant over prefixes --------------------------------------------

  // The block that a beginning of a chunk describes.
  function BlockSoFar(chunk: seq<Event>): ClientBlock
    requires chunk != [] && chunk[0].BlockStart?
  {
    ClientBlock(Opened(chunk[0].start), ChunkText(chunk))
  }

  predicate Matches(chunk: seq<Event>, b: ClientBlock) {
    chunk != [] && chunk[0].BlockStart? && b == BlockSoFar(chunk)
  }

  function ThinkingTexts(content: seq<ClientBlock>): seq<string> {
    if content == [] then []
    else ThinkingTexts(content[..|content|-1])
         + ThinkingText(content[|content|-1])
  }

  lemma {:induction false} ThinkingTextsConcat(a: seq<ClientBlock>, b: seq<ClientBlock>)
    ensures ThinkingTexts(a + b) == ThinkingTexts(a) + ThinkingTexts(b)
  {
    if b == [] {
      assert a + b == a;
    } else {
      assert (a + b)[..|a + b|-1] == a + b[..|b|-1];
      ThinkingTextsConcat(a, b[..|b|-1]);
    }
  }

  function ThinkingText(b: ClientBlock): seq<string> { if b.open.kind == ThinkingKind then [b.text] else [] }

  lemma ThinkingTextsSplit(content: seq<ClientBlock>, i: nat, b: ClientBlock)
    requires i < |content|
    ensures ThinkingTexts(content[i := b]) ==
            ThinkingTexts(content[..i]) + (ThinkingText(b) + ThinkingTexts(content[i+1..]))
  {
    var pre, post := content[..i], content[i+1..];
    assert content[i := b] == pre + ([b] + post);
    ThinkingTextsConcat(pre, [b] + post);
    ThinkingTextsConcat([b], post);
    assert [b][..0] == [];
  }

  // Rewriting one thinking block rewrites one thinking text.
  lemma ThinkingTextsUpdate(content: seq<ClientBlock>, i: nat, b: ClientBlock)
    requires i < |content| && content[i].open.kind == ThinkingKind && b.open.kind == ThinkingKind
    ensures var p := |ThinkingTexts(content[..i])|;
            && p < |ThinkingTexts(content)| && ThinkingTexts(content)[p] == content[i].text
            && ThinkingTexts(content[i := b]) == ThinkingTexts(content)[p := b.text]
  {
    var before, after := ThinkingTexts(content[..i]), ThinkingTexts(content[i+1..]);
    ThinkingTextsSplit(content, i, content[i]);
    ThinkingTextsSplit(content, i, b);
    assert content[i := content[i]] == content;
    UpdateMiddle(before, content[i].text, b.text, after);
  }

  lemma UpdateMiddle(a: seq<string>, x: string, y: string, z: seq<string>)
    ensures (a + ([x] + z))[|a|] == x && (a + ([x] + z))[|a| := y] == a + ([y] + z)
  {}

  lemma ThinkingTextsSkip(content: seq<ClientBlock>, i: nat, b: ClientBlock)
    requires i < |content| && content[i].open.kind != ThinkingKind && b.open.kind != ThinkingKind
    ensures ThinkingTexts(content[i := b]) == ThinkingTexts(content)
  {
    ThinkingTextsSplit(content, i, content[i]);
    ThinkingTextsSplit(content, i, b);
    assert content[i := content[i]] == content;
  }

  // What the client has is what the events so far describe, block by block.
  ghost predicate Reconstructs(c: Client, es: seq<Event>) {
    && !c.failed && |c.content| == |StartOrder(es)|
    && (forall i | 0 <= i < |c.content| :: Matches(Project(es, i), c.content[i]))
    && (forall i :: !(0 <= i < |c.content|) ==> Project(es, i) == [])
  }

  // The decoder's thinking texts are the client's, and its positions count them.
  ghost predicate Tracks(d: Decoder, content: seq<ClientBlock>) {
    && d.status.Running? && d.thinking == ThinkingTexts(content) && d.reasoning == d.thinking
    && forall i | 0 <= i < |content| && content[i].open.kind == ThinkingKind ::
         i in d.positions && d.positions[i] == |ThinkingTexts(content[..i])|
  }

  lemma ProjectOne(es: seq<Event>, e: Event, i: int)
    ensures Project(es + [e], i) == Project(es, i) + if OfBlock(e, i) then [e] else []
    ensures StartOrder(es + [e]) == StartOrder(es) + if e.BlockStart? then [e.index] else []
  {
    assert (es + [e])[..|es|] == es;
  }

  lemma MatchesStart(e: Event)
    requires e.BlockStart?
    ensures Matches([e], ClientBlock(Opened(e.start), ""))
  {
    assert [e][..0] == [] && ChunkText([e]) == ChunkText([]) + "";
  }

  lemma MatchesNext(chunk: seq<Event>, b: ClientBlock, e: Event)
    requires Matches(chunk, b)
    ensures Matches(chunk + [e], if e.BlockDelta? then b.(text := b.text + DeltaText(e.delta)) else b)
  {
    assert (chunk + [e])[..|chunk|] == chunk;
    assert b.text + "" == b.text;
  }

  lemma StartReconstructs(c: Client, es: seq<Event>, chunks: seq<seq<Event>>, e: Event)
    requires Begins(es + [e], chunks) && (forall ch | ch in chunks :: IsChunk(ch)) && e.BlockStart?
    requires Reconstructs(c, es)
    ensures e.index == |c.content|
    ensures Reconstructs(ClientStep(c, BlockStartFrame(e.index, Opened(e.start))), es + [e])
  {
    var es', i := es + [e], e.index;
    ProjectOne(es, e, i);
    assert StartOrder(es')[|StartOrder(es)|] == |StartOrder(es)|;
    var c' := ClientStep(c, BlockStartFrame(i, Opened(e.start)));
    MatchesStart(e);
    assert Project(es', i) == [e];
    forall k ensures k != i ==> Project(es', k) == Project(es, k) {
      ProjectOne(es, e, k);
    }
  }

  lemma StartTracks(d: Decoder, content: seq<ClientBlock>, e: Event)
    requires Valid(d) && e.BlockStart? && e.index == |content| && Tracks(d, content)
    ensures Tracks(DecodeStep(d, e).0, content + [ClientBlock(Opened(e.start), "")])
  {
    var b := ClientBlock(Opened(e.start), "");
    var content' := content + [b];
    ThinkingTextsConcat(content, [b]);
    assert [b][..0] == [];
    forall k | 0 <= k <= |content| ensures content'[..k] == content[..k] {}
    assert content[..|content|] == content;
  }

  // A delta belongs to a block already opened with its kind.
  lemma DeltaFits(c: Client, es: seq<Event>, chunks: seq<seq<Event>>, e: Event)
    requires Begins(es + [e], chunks) && (forall ch | ch in chunks :: IsChunk(ch))
    requires Reconstructs(c, es) && e.BlockDelta?
    ensures 0 <= e.index < |c.content| && c.content[e.index].open.kind == DeltaKind(e.delta)
  {
    var i := e.index;
    ProjectOne(es, e, i);
    var p := Project(es, i);
    assert p + [e] <= ChunkAt(chunks, i);
    var ch := ChunkAt(chunks, i);
    assert ch in chunks && ch[|p|] == (p + [e])[|p|] == e;
    assert 0 < |p| < |ch| - 1;
    assert ch[0] == (p + [e])[0] == p[0];
  }

  lemma DeltaReconstructs(c: Client, es: seq<Event>, chunks: seq<seq<Event>>, e: Event)
    requires Begins(es + [e], chunks) && (forall ch | ch in chunks :: IsChunk(ch)) && e.BlockDelta?
    requires Reconstructs(c, es)
    ensures Reconstructs(ClientStep(c, DeltaFrame(e.index, DeltaKind(e.delta), DeltaText(e.delta))), es + [e])
  {
    DeltaFits(c, es, chunks, e);
    var es', i := es + [e], e.index;
    var c' := ClientStep(c, DeltaFrame(i, DeltaKind(e.delta), DeltaText(e.delta)));
    ProjectOne(es, e, i);
    MatchesNext(Project(es, i), c.content[i], e);
    forall k ensures k != i ==> Project(es', k) == Project(es, k) {
      ProjectOne(es, e, k);
    }
  }

  lemma DeltaTracks(d: Decoder, content: seq<ClientBlock>, e: Event)
    requires Valid(d) && e.BlockDelta? && Tracks(d, content)
    requires 0 <= e.index < |content| && content[e.index].open.kind == DeltaKind(e.delta)
    ensures var b := content[e.index];
            Tracks(DecodeStep(d, e).0, content[e.index := b.(text := b.text + DeltaText(e.delta))])
    ensures DecodeStep(d, e).1 == [DeltaFrame(e.index, DeltaKind(e.delta), DeltaText(e.delta))]
  {
    var b' := content[e.index].(text := content[e.index].text + DeltaText(e.delta));
    if e.delta.ReasoningDelta? {
      ThinkingTextsUpdate(content, e.index, b');
    } else {
      ThinkingTextsSkip(content, e.index, b');
    }
    PositionsKept(content, e.index, b');
  }

  lemma PositionsKept(content: seq<ClientBlock>, i: nat, b: ClientBlock)
    requires i < |content| && content[i].open.kind == b.open.kind
    ensures forall k | 0 <= k < |content| :: |ThinkingTexts(content[i := b][..k])| == |ThinkingTexts(content[..k])|
  {
    forall k | 0 <= k < |content| ensures |ThinkingTexts(content[i := b][..k])| == |ThinkingTexts(content[..k])| {
      if k <= i {
        assert content[i := b][..k] == content[..k];
      } else {
        assert content[i := b][..k] == content[..k][i := b];
        if b.open.kind == ThinkingKind {
          ThinkingTextsUpdate(content[..k], i, b);
        } else {
          ThinkingTextsSkip(content[..k], i, b);
        }
      }
    }
  }

  // Events that carry no content leave the reconstruction alone.
  lemma QuietCase(c: Client, c': Client, es: seq<Event>, chunks: seq<seq<Event>>, e: Event)
    requires Begins(es + [e], chunks) && (forall ch | ch in chunks :: IsChunk(ch)) && !e.BlockStart? && !e.BlockDelta?
    requires Reconstructs(c, es) && c'.content == c.content && c'.failed == c.failed
    ensures Reconstructs(c', es + [e])
  {
    var es' := es + [e];
    ProjectOne(es, e, 0);
    forall i ensures 0 <= i < |c.content| ==> Matches(Project(es', i), c.content[i])
             ensures !(0 <= i < |c.content|) ==> Project(es', i) == []
    {
      ProjectOne(es, e, i);
      var p := Project(es, i);
      if OfBlock(e, i) {
        assert p + [e] <= ChunkAt(chunks, i);
        var ch := ChunkAt(chunks, i);
        assert ch in chunks && ch[|p|] == (p + [e])[|p|] == e;
        MatchesNext(p, c.content[i], e);
      } else {
        assert p + [] == p;
      }
    }
  }

  // The state of decoder and client after the events es.
  ghost predicate InStep(d: Decoder, fs: seq<Frame>, es: seq<Event>) {
    Reconstructs(ReadFrames(fs), es) && Tracks(d, ReadFrames(fs).content)
  }

  lemma StartStep(d: Decoder, fs: seq<Frame>, es: seq<Event>, chunks: seq<seq<Event>>, e: Event)
    requires Valid(d) && Begins(es + [e], chunks) && forall ch | ch in chunks :: IsChunk(ch)
    requires InStep(d, fs, es) && e.BlockStart?
    ensures InStep(DecodeStep(d, e).0, fs + DecodeStep(d, e).1, es + [e])
  {
    var f := BlockStartFrame(e.index, Opened(e.start));
    assert DecodeStep(d, e).1 == [f];
    ReadOne(fs, f);
    StartReconstructs(ReadFrames(fs), es, chunks, e);
    StartTracks(d, ReadFrames(fs).content, e);
  }

  lemma DeltaStep(d: Decoder, fs: seq<Frame>, es: seq<Event>, chunks: seq<seq<Event>>, e: Event)
    requires Valid(d) && Begins(es + [e], chunks) && forall ch | ch in chunks :: IsChunk(ch)
    requires InStep(d, fs, es) && e.BlockDelta?
    ensures InStep(DecodeStep(d, e).0, fs + DecodeStep(d, e).1, es + [e])
  {
    DeltaFits(ReadFrames(fs), es, chunks, e);
    DeltaReconstructs(ReadFrames(fs), es, chunks, e);
    DeltaTracks(d, ReadFrames(fs).content, e);
    ReadOne(fs, DeltaFrame(e.index, DeltaKind(e.delta), DeltaText(e.delta)));
  }

  lemma QuietStep(d: Decoder, fs: seq<Frame>, es: seq<Event>, chunks: seq<seq<Event>>, e: Event)
    requires Valid(d) && Begins(es + [e], chunks) && forall ch | ch in chunks :: IsChunk(ch)
    requires InStep(d, fs, es) && !e.BlockStart? && !e.BlockDelta?
    ensures InStep(DecodeStep(d, e).0, fs + DecodeStep(d, e).1, es + [e])
  {
    assert e in es + [e];
    ReadQuiet(d, fs, e);
    QuietCase(ReadFrames(fs), ReadFrames(fs + DecodeStep(d, e).1), es, chunks, e);
  }

  lemma {:induction false} ContentSoFar(d: Decoder, es: seq<Event>, chunks: seq<seq<Event>>)
    requires Begins(es, chunks) && forall ch | ch in chunks :: IsChunk(ch)
    requires Valid(d) && d.status.Running? && d.thinking == []
    ensures var r := Decode(d, es);
            InStep(r.0, r.1, es)
  {
    if es != [] {
      var init, e := es[..|es|-1], es[|es|-1];
      assert es == init + [e];
      BeginsPrefix(es, chunks);
      ContentSoFar(d, init, chunks);
      var before := Decode(d, init);
      if e.BlockStart? { StartStep(before.0, before.1, init, chunks, e); }
      else if e.BlockDelta? { DeltaStep(before.0, before.1, init, chunks, e); }
      else { QuietStep(before.0, before.1, init, chunks, e); }
    }
  }

  lemma ReadQuiet(d: Decoder, fs: seq<Frame>, e: Event)
    requires Valid(d) && d.status.Running? && !e.BlockStart? && !e.BlockDelta? && !e.StreamException?
    ensures var r, c := DecodeStep(d, e), ReadFrames(fs);
            var c' := ReadFrames(fs + r.1);
            && c'.content == c.content && c'.failed == c.failed
            && r.0.status.Running?
            && r.0.thinking == d.thinking && r.0.reasoning == d.reasoning && r.0.positions == d.positions
  {
    var r := DecodeStep(d, e);
    if |r.1| == 0 { assert fs + r.1 == fs; }
    else if |r.1| == 1 { assert r.1 == [r.1[0]]; ReadOne(fs, r.1[0]); }
    else { assert r.1 == [r.1[0], r.1[1]]; ReadTwo(fs, r.1[0], r.1[1]); }
  }

  // --- Stop reason and usage --------------------------------------------------

  // How far the stop and the usage have come after s messageStop and m metadata events.
  predicate Settled(d: Decoder, c: Client, s: nat, m: nat, reason: Option<string>, raw: Option<RawUsage>) {
    && d.usage == (if m == 0 then ZERO_USAGE else NormalizeUsage(raw))
    && (if s == 0 || reason.None? then d.pending.None? && c.stopReason.None? && !c.stopped
        else if d.pending.Some? then d.pending == reason && c.stopReason.None? && !c.stopped
        else m > 0 && c.stopped && c.stopReason == MapStopReason(reason) && c.usage == Some(NormalizeUsage(raw)))
  }

  lemma FlushSettles(d: Decoder, fs: seq<Frame>, s: nat, m: nat, reason: Option<string>, raw: Option<RawUsage>)
    requires Settled(d, ReadFrames(fs), s, m, reason, raw) && m > 0
    ensures Settled(Flush(d).0, ReadFrames(fs + Flush(d).1), s, m, reason, raw) && Flush(d).0.pending.None?
    ensures ReadFrames(fs + Flush(d).1).content == ReadFrames(fs).content
    ensures ReadFrames(fs + Flush(d).1).failed == ReadFrames(fs).failed
  {
    if d.pending.Some? {
      ReadTwo(fs, MessageDeltaFrame(StopReasonOut(d.pending.value), d.usage), MessageStopFrame);
    } else {
      assert fs + [] == fs;
    }
  }

  // Only the two stop frames touch what the client knows about the end of the message.
  lemma OtherFramesKeepStop(c: Client, f: Frame)
    requires !f.MessageDeltaFrame? && !f.MessageStopFrame?
    ensures var c' := ClientStep(c, f); c'.stopReason == c.stopReason && c'.usage == c.usage && c'.stopped == c.stopped
  {}

  lemma OtherEventsKeepStop(d: Decoder, e: Event)
    requires Valid(d) && d.status.Running? && !e.MessageStop? && !e.Metadata?
    ensures var r := DecodeStep(d, e);
            && r.0.pending == d.pending && r.0.usage == d.usage && |r.1| <= 1
            && (r.1 != [] ==> !r.1[0].MessageDeltaFrame? && !r.1[0].MessageStopFrame?)
  {}

  lemma OtherFrameSettles(d: Decoder, fs: seq<Frame>, e: Event, s: nat, m: nat, reason: Option<string>,
                          raw: Option<RawUsage>)
    requires Valid(d) && d.status.Running? && !e.MessageStop? && !e.Metadata?
    requires Settled(d, ReadFrames(fs), s, m, reason, raw)
    ensures Settled(DecodeStep(d, e).0, ReadFrames(fs + DecodeStep(d, e).1), s, m, reason, raw)
  {
    var r := DecodeStep(d, e);
    OtherEventsKeepStop(d, e);
    if r.1 == [] {
      assert fs + r.1 == fs;
    } else {
      ReadOne(fs, r.1[0]);
      assert r.1 == [r.1[0]];
      OtherFramesKeepStop(ReadFrames(fs), r.1[0]);
    }
  }

  lemma StepSettles(d: Decoder, fs: seq<Frame>, e: Event, s: nat, m: nat, reason: Option<string>, raw: Option<RawUsage>)
    requires Valid(d) && d.status.Running? && Settled(d, ReadFrames(fs), s, m, reason, raw)
    requires e.MessageStop? ==> s == 0 && e.reason == reason
    requires e.Metadata? ==> m == 0 && e.raw == raw
    ensures var r := DecodeStep(d, e);
            Settled(r.0, ReadFrames(fs + r.1), s + (if e.MessageStop? then 1 else 0),
                    m + (if e.Metadata? then 1 else 0), reason, raw)
  {
    if e.MessageStop? {
      assert fs + [] == fs;
    } else if e.Metadata? {
      FlushSettles(d.(usage := NormalizeUsage(raw)), fs, s, 1, reason, raw);
    } else {
      OtherFrameSettles(d, fs, e, s, m, reason, raw);
    }
  }

  lemma {:induction false} SettledSoFar(d: Decoder, es: seq<Event>, reason: Option<string>, raw: Option<RawUsage>)
    requires Valid(d) && d.status.Running? && d.pending.None? && d.usage == ZERO_USAGE
    requires CountStopEvents(es) <= 1 && CountMetadata(es) <= 1 && Decode(d, es).0.status.Running?
    requires forall e | e in es && e.MessageStop? :: e.reason == reason
    requires forall e | e in es && e.Metadata? :: e.raw == raw
    ensures Settled(Decode(d, es).0, ReadFrames(Decode(d, es).1), CountStopEvents(es), CountMetadata(es), reason, raw)
  {
    if es != [] {
      var init := es[..|es|-1];
      assert es[|es|-1] in es;
      SettledSoFar(d, init, reason, raw);
      StepSettles(Decode(d, init).0, Decode(d, init).1, es[|es|-1],
                  CountStopEvents(init), CountMetadata(init), reason, raw);
    }
  }

  // --- Against the batch parser -----------------------------------------------

  // The chunk streams the block; `loads` reads the text of a tool input back as a value.
  predicate Streams(loads: string -> Json, chunk: seq<Event>, b: BedrockBlock) {
    && IsChunk(chunk)
    && match b
       case BText(t) => Opened(chunk[0].start).kind == TextKind && ChunkText(chunk) == t
       case BToolUse(id, name, input) =>
         && id.Some? && name.Some? && chunk[0].start == ToolStart(id, name)
         && loads(ChunkText(chunk)) == input.GetOr(Obj(map[]))
       case BReasoning(r) => chunk[0].start == ReasoningStart && ChunkText(chunk) == r.text.GetOr("")
       case BOther => false
  }

  // The client's blocks in the parser's form.
  function Render(loads: string -> Json, b: ClientBlock): seq<ContentBlock> {
    match b.open.kind
    case TextKind => [Text(b.text)]
    case ToolKind => [ToolUse(b.open.id.GetOr(""), b.open.name.GetOr(""), loads(b.text))]
    case ThinkingKind => []
  }

  function Rendered(loads: string -> Json, content: seq<ClientBlock>): seq<ContentBlock> {
    if content == [] then [] else Rendered(loads, content[..|content|-1]) + Render(loads, content[|content|-1])
  }

  // The thinking texts as the blocks a decoder can report: without signatures.
  function Unsigned(texts: seq<string>): (r: seq<ThinkingBlock>)
    ensures |r| == |texts| && forall k | 0 <= k < |r| :: r[k] == Thinking(texts[k], None)
  {
    seq(|texts|, k requires 0 <= k < |texts| => Thinking(texts[k], None))
  }

  function TextsOf(ts: seq<ThinkingBlock>): (r: seq<string>)
    ensures |r| == |ts| && forall k | 0 <= k < |r| :: r[k] == ts[k].thinking
  {
    seq(|ts|, k requires 0 <= k < |ts| => ts[k].thinking)
  }

  predicate NoSignatures(blocks: seq<BedrockBlock>) {
    forall b | b in blocks && b.BReasoning? :: b.reasoning.signature.None?
  }

  lemma TextsOfConcat(a: seq<ThinkingBlock>, b: seq<ThinkingBlock>)
    ensures TextsOf(a + b) == TextsOf(a) + TextsOf(b)
  {
  }

  // One block, in the parser's forms.
  lemma BlockAgrees(loads: string -> Json, chunk: seq<Event>, b: BedrockBlock)
    requires Streams(loads, chunk, b)
    ensures Render(loads, BlockSoFar(chunk)) == ContentOf(b) && Complete(b)
    ensures ThinkingText(BlockSoFar(chunk)) == TextsOf(ThinkingOf(b))
  {
  }

  lemma {:induction false} BlocksAgree(loads: string -> Json, chunks: seq<seq<Event>>, blocks: seq<BedrockBlock>,
                                       content: seq<ClientBlock>)
    requires |chunks| == |blocks| == |content|
    requires forall i | 0 <= i < |blocks| :: Streams(loads, chunks[i], blocks[i]) && content[i] == BlockSoFar(chunks[i])
    ensures Rendered(loads, content) == Contents(blocks)
    ensures ThinkingTexts(content) == TextsOf(Thinkings(blocks))
    ensures forall b | b in blocks :: Complete(b)
  {
    if blocks != [] {
      var n := |blocks| - 1;
      BlocksAgree(loads, chunks[..n], blocks[..n], content[..n]);
      BlockAgrees(loads, chunks[n], blocks[n]);
      TextsOfConcat(Thinkings(blocks[..n]), ThinkingOf(blocks[n]));
      assert blocks == blocks[..n] + [blocks[n]];
    }
  }

  lemma {:induction false} SignaturesOf(blocks: seq<BedrockBlock>)
    ensures NoSignatures(blocks) <==> forall t | t in Thinkings(blocks) :: t.signature.None?
  {
    if blocks != [] {
      var n := |blocks| - 1;
      SignaturesOf(blocks[..n]);
      assert blocks == blocks[..n] + [blocks[n]];
      assert Thinkings(blocks) == Thinkings(blocks[..n]) + ThinkingOf(blocks[n]);
      assert blocks[n].BReasoning? ==> ThinkingOf(blocks[n])[0].signature == blocks[n].reasoning.signature;
    }
  }

  lemma UnsignedIff(ts: seq<ThinkingBlock>)
    ensures Unsigned(TextsOf(ts)) == ts <==> forall t | t in ts :: t.signature.None?
  {
    var u := Unsigned(TextsOf(ts));
    if u == ts {
      forall t | t in ts ensures t.signature.None? {
        var k :| 0 <= k < |ts| && ts[k] == t;
        assert u[k] == ts[k];
      }
    }
  }

  // Every block's chunk is opened exactly when its turn comes, so all of them are open at the end.
  lemma AllOpened(c: Client, es: seq<Event>, chunks: seq<seq<Event>>)
    requires Reconstructs(c, es)
    requires forall i :: Project(es, i) == ChunkAt(chunks, i)
    requires forall ch | ch in chunks :: IsChunk(ch)
    ensures |c.content| == |chunks|
    ensures forall i | 0 <= i < |chunks| :: IsChunk(chunks[i]) && c.content[i] == BlockSoFar(chunks[i])
  {
    forall i ensures Project(es, i) != [] <==> 0 <= i < |chunks| {
      if 0 <= i < |chunks| { assert chunks[i] in chunks; }
    }
    forall i ensures Project(es, i) != [] <==> 0 <= i < |c.content| {
      if 0 <= i < |c.content| { assert Matches(Project(es, i), c.content[i]); }
    }
    var past, beyond := Project(es, |c.content|), Project(es, |chunks|);
    assert past == [] && beyond == [];
    forall i | 0 <= i < |chunks| ensures IsChunk(chunks[i]) && c.content[i] == BlockSoFar(chunks[i]) {
      assert chunks[i] in chunks;
      assert Matches(Project(es, i), c.content[i]);
    }
  }

  lemma InterleavesBegins(es: seq<Event>, chunks: seq<seq<Event>>, reason: Option<string>, raw: Option<RawUsage>)
    requires Interleaves(es, chunks, reason, raw)
    ensures Begins(es, chunks)
  {}

  // For any content, any cutting of each block into a start, deltas and a stop, any interleaving
  // of those chunks, and any place for the messageStop and metadata events: the client that folds
  // the frames ends with the parser's content, thinking texts, stop reason and usage; the decoder's
  // own thinking_blocks are the parser's exactly when no block is signed; and the message is closed
  // exactly when there is a stop reason.
  lemma StreamAgreesWithBatch(loads: string -> Json, blocks: seq<BedrockBlock>, chunks: seq<seq<Event>>, es: seq<Event>,
                              reason: Option<string>, raw: Option<RawUsage>, model: Option<string>, messageId: string)
    requires Interleaves(es, chunks, reason, raw)
    requires |chunks| == |blocks| && forall i | 0 <= i < |blocks| :: Streams(loads, chunks[i], blocks[i])
    ensures var (d, frames) := DecodeAll(NewDecoder(model, messageId), es);
            var client, batch := ReadFrames(frames), Parse(Response(blocks, reason, raw));
            && d.status.Running? && !client.failed && (forall b | b in blocks :: Complete(b))
            && Rendered(loads, client.content) == batch.content
            && ThinkingTexts(client.content) == d.thinking == d.reasoning == TextsOf(batch.thinking)
            && (Unsigned(d.thinking) == batch.thinking <==> NoSignatures(blocks))
            && client.stopReason == batch.stopReason
            && (client.stopped <==> reason.Some?)
            && (reason.Some? ==> client.usage == Some(batch.usage))
            && d.usage == batch.usage
  {
    var d0 := NewDecoder(model, messageId);
    var r := Decode(d0, es);
    InterleavesBegins(es, chunks, reason, raw);
    ContentSoFar(d0, es, chunks);
    SettledSoFar(d0, es, reason, raw);
    AllOpened(ReadFrames(r.1), es, chunks);
    BlocksAgree(loads, chunks, blocks, ReadFrames(r.1).content);
    SignaturesOf(blocks);
    UnsignedIff(Thinkings(blocks));
    FlushSettles(r.0, r.1, 1, 1, reason, raw);
  }
}
