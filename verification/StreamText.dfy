// From Bedrock events to the bytes on the wire and back: a client that parses the
// event stream text and folds the payloads gets what the batch parser would have returned.
module StreamText {
  import opened Wrappers
  import opened JsonValues
  import opened Converse
  import opened ResponseParser
  import opened StreamDecoder
  import opened StreamAgreement
  import opened SseFraming

  // The event name each payload is sent under.
  function EventName(f: Frame): string {
    match f
    case StartFrame(_, _, _) => "message_start"
    case BlockStartFrame(_, _) => "content_block_start"
    case DeltaFrame(_, _, _) => "content_block_delta"
    case BlockStopFrame(_) => "content_block_stop"
    case MessageDeltaFrame(_, _) => "message_delta"
    case MessageStopFrame => "message_stop"
    case ErrorFrame(_) => "error"
  }

  // JSON serialization of the payloads: no raw line break, and readable back.
  datatype Codec = Codec(dumps: Frame -> string, loads: string -> Frame)

  // What is needed of it, for the frames that are sent.
  predicate Faithful(codec: Codec, fs: seq<Frame>) {
    forall f | f in fs :: OneLine(codec.dumps(f)) && codec.loads(codec.dumps(f)) == f
  }

  // The first place of a frame in a list, or its length.
  function Place(fs: seq<Frame>, f: Frame): (k: nat)
    ensures k <= |fs|
    ensures f in fs ==> k < |fs| && fs[k] == f
  {
    if fs == [] || fs[0] == f then 0 else 1 + Place(fs[1..], f)
  }

  // Whatever frames are sent, some codec serves them: it writes each as its place in unary.
  lemma SomeCodecIsFaithful(fs: seq<Frame>) returns (codec: Codec)
    ensures Faithful(codec, fs)
  {
    codec := Codec(f => seq(Place(fs, f), _ => '1'), s => if |s| < |fs| then fs[|s|] else MessageStopFrame);
    forall f | f in fs ensures OneLine(codec.dumps(f)) && codec.loads(codec.dumps(f)) == f {
      var text := seq(Place(fs, f), _ => '1');
      assert codec.dumps(f) == text && |text| == Place(fs, f);
      assert forall i | 0 <= i < |text| :: text[i] == '1';
    }
  }

  function ToMessages(codec: Codec, fs: seq<Frame>): (ms: seq<Message>)
    ensures |ms| == |fs| && forall i | 0 <= i < |fs| :: ms[i] == Message(EventName(fs[i]), codec.dumps(fs[i]))
  {
    seq(|fs|, i requires 0 <= i < |fs| => Message(EventName(fs[i]), codec.dumps(fs[i])))
  }

  function ToFrames(codec: Codec, ms: seq<Message>): (fs: seq<Frame>)
    ensures |fs| == |ms| && forall i | 0 <= i < |ms| :: fs[i] == codec.loads(ms[i].data)
  {
    seq(|ms|, i requires 0 <= i < |ms| => codec.loads(ms[i].data))
  }

  // The text the proxy streams to its client.
  function WireText(codec: Codec, fs: seq<Frame>): string { Encode(ToMessages(codec, fs)) }

  // What a client makes of the text.
  function ReadWire(codec: Codec, text: string): Client { ReadFrames(ToFrames(codec, ParseSse(text))) }

  // Each kind of frame goes out under its own event name.
  lemma NamesSay(f: Frame)
    ensures f.StartFrame? <==> EventName(f) == "message_start"
    ensures f.BlockStartFrame? <==> EventName(f) == "content_block_start"
    ensures f.DeltaFrame? <==> EventName(f) == "content_block_delta"
    ensures f.BlockStopFrame? <==> EventName(f) == "content_block_stop"
    ensures f.MessageDeltaFrame? <==> EventName(f) == "message_delta"
    ensures f.MessageStopFrame? <==> EventName(f) == "message_stop"
    ensures f.ErrorFrame? <==> EventName(f) == "error"
  {
    assert |"message_start"| == 13 && |"content_block_start"| == 19 && |"content_block_delta"| == 19;
    assert |"content_block_stop"| == 18 && |"message_delta"| == 13 && |"message_stop"| == 12 && |"error"| == 5;
    assert "message_start"[8] != "message_delta"[8] && "content_block_start"[14] != "content_block_delta"[14];
  }

  lemma NameIsPlain(f: Frame)
    ensures EventName(f) != "" && OneLine(EventName(f))
  {}

  // Nothing is lost or invented on the wire.
  lemma WireIsLossless(codec: Codec, fs: seq<Frame>)
    requires Faithful(codec, fs)
    ensures ReadWire(codec, WireText(codec, fs)) == ReadFrames(fs)
    ensures ParseSse(WireText(codec, fs)) == ToMessages(codec, fs)
  {
    var ms := ToMessages(codec, fs);
    forall i | 0 <= i < |ms| ensures OneLine(ms[i].kind) && OneLine(ms[i].data) && ms[i].kind != "" {
      NameIsPlain(fs[i]);
    }
    FramingRoundTrip(ms);
    assert ToFrames(codec, ms) == fs;
  }

  // End to end: the streamed text of any well-formed stream, read back by a client, is the
  // content, stop reason and usage that parse_converse_response gives for the same message.
  lemma WireAgreesWithBatch(codec: Codec, loads: string -> Json, blocks: seq<BedrockBlock>, chunks: seq<seq<Event>>,
                            es: seq<Event>, reason: Option<string>, raw: Option<RawUsage>, model: Option<string>,
                            messageId: string)
    requires Faithful(codec, DecodeAll(NewDecoder(model, messageId), es).1) && Interleaves(es, chunks, reason, raw)
    requires |chunks| == |blocks| && forall i | 0 <= i < |blocks| :: Streams(loads, chunks[i], blocks[i])
    ensures var client := ReadWire(codec, WireText(codec, DecodeAll(NewDecoder(model, messageId), es).1));
            var batch := Parse(Response(blocks, reason, raw));
            && !client.failed && Rendered(loads, client.content) == batch.content
            && ThinkingTexts(client.content) == TextsOf(batch.thinking)
            && client.stopReason == batch.stopReason && (client.stopped <==> reason.Some?)
            && (reason.Some? ==> client.usage == Some(batch.usage))
  {
    WireIsLossless(codec, DecodeAll(NewDecoder(model, messageId), es).1);
    StreamAgreesWithBatch(loads, blocks, chunks, es, reason, raw, model, messageId);
  }
}
