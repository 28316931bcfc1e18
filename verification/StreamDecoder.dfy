// ConverseStreamDecoder: Bedrock stream events in, Anthropic stream frames out.
module StreamDecoder {
  import opened Wrappers
  import opened Converse

  datatype StartPayload = TextStart | ToolStart(id: Option<string>, name: Option<string>) | ReasoningStart | OtherStart

  datatype Delta =
    | TextDelta(text: string)
    | ToolDelta(input: Option<string>)
    | ReasoningDelta(reasoning: Option<string>)
    | OtherDelta

  datatype Event =
    | MessageStart(role: Option<string>)
    | BlockStart(index: int, start: StartPayload)
    | BlockDelta(index: int, delta: Delta)
    | BlockStop(index: int)
    | MessageStop(reason: Option<string>)
    | Metadata(raw: Option<RawUsage>)
    | StreamException(message: string)
    | OtherEvent

  datatype Kind = TextKind | ToolKind | ThinkingKind

  datatype OpenBlock = OpenBlock(kind: Kind, id: Option<string>, name: Option<string>)

  // The payloads of the server-sent events.
  datatype Frame =
    | StartFrame(messageId: string, role: string, model: Option<string>)
    | BlockStartFrame(index: int, block: OpenBlock)
    | DeltaFrame(index: int, kind: Kind, text: string)
    | BlockStopFrame(index: int)
    | MessageDeltaFrame(stopReason: string, usage: Usage)
    | MessageStopFrame
    | ErrorFrame(message: string)

  // Running, ended by an exception event, or failed with a KeyError.
  datatype Status = Running | Ended | Failed

  datatype Decoder = Decoder(
    model: Option<string>,
    messageId: string,
    pending: Option<string>,
    blockTypes: map<int, Kind>,
    positions: map<int, nat>,
    thinking: seq<string>,
    reasoning: seq<string>,
    usage: Usage,
    status: Status)

  function NewDecoder(model: Option<string>, messageId: string): Decoder {
    Decoder(model, messageId, None, map[], map[], [], [], ZERO_USAGE, Running)
  }

  function Opened(start: StartPayload): OpenBlock {
    match start
    case ToolStart(id, name) => OpenBlock(ToolKind, id, name)
    case ReasoningStart => OpenBlock(ThinkingKind, None, None)
    case _ => OpenBlock(TextKind, None, None)
  }

  function DeltaKind(d: Delta): Kind {
    match d
    case ToolDelta(_) => ToolKind
    case ReasoningDelta(_) => ThinkingKind
    case _ => TextKind
  }

  function DeltaText(d: Delta): string {
    match d
    case TextDelta(t) => t
    case ToolDelta(input) => input.GetOr("")
    case ReasoningDelta(t) => t.GetOr("")
    case OtherDelta => ""
  }

  // Every recorded position is in range, and both records are equally long.
  predicate Valid(d: Decoder) {
    |d.thinking| == |d.reasoning| && forall i | i in d.positions :: d.positions[i] < |d.thinking|
  }

  function StopReasonOut(pending: string): string {
    if pending in SUPPORTED_STOP_REASONS then pending else "end_turn"
  }

  function Flush(d: Decoder): (Decoder, seq<Frame>) {
    match d.pending
    case None => (d, [])
    case Some(reason) => (d.(pending := None), [MessageDeltaFrame(StopReasonOut(reason), d.usage), MessageStopFrame])
  }

  function OpenStep(d: Decoder, index: int, start: StartPayload): Decoder {
    var d1 := d.(blockTypes := d.blockTypes[index := Opened(start).kind]);
    if start.ReasoningStart? then
      d1.(positions := d.positions[index := |d.thinking|],
          thinking := d.thinking + [""],
          reasoning := d.reasoning + [""])
    else d1
  }

  // The effect of one event, and the frames it makes the decoder yield.
  function DecodeStep(d: Decoder, e: Event): (r: (Decoder, seq<Frame>))
    requires Valid(d)
    ensures Valid(r.0)
  {
    if !d.status.Running? then (d, [])
    else match e
      case MessageStart(role) => (d, [StartFrame(d.messageId, role.GetOr("assistant"), d.model)])
      case BlockStart(index, start) => (OpenStep(d, index, start), [BlockStartFrame(index, Opened(start))])
      case BlockDelta(index, delta) =>
        if delta.ReasoningDelta? then
          if index !in d.positions then (d.(status := Failed), [])
          else
            var (p, t) := (d.positions[index], DeltaText(delta));
            (d.(thinking := d.thinking[p := d.thinking[p] + t], reasoning := d.reasoning[p := d.reasoning[p] + t]),
             [DeltaFrame(index, ThinkingKind, t)])
        else (d, [DeltaFrame(index, DeltaKind(delta), DeltaText(delta))])
      case BlockStop(index) => (d, [BlockStopFrame(index)])
      case MessageStop(reason) => (d.(pending := reason), [])
      case Metadata(raw) => Flush(d.(usage := NormalizeUsage(raw)))
      case StreamException(message) => (d.(status := Ended), [ErrorFrame(message)])
      case OtherEvent => (d, [])
  }

  function Decode(d: Decoder, es: seq<Event>): (r: (Decoder, seq<Frame>))
    requires Valid(d)
    ensures Valid(r.0)
  {
    if es == [] then (d, [])
    else
      var before := Decode(d, es[..|es|-1]);
      var step := DecodeStep(before.0, es[|es|-1]);
      (step.0, before.1 + step.1)
  }

  // A whole stream: the pending stop is flushed when the events run out.
  function DecodeAll(d: Decoder, es: seq<Event>): (r: (Decoder, seq<Frame>))
    requires Valid(d)
    ensures Valid(r.0)
  {
    var r := Decode(d, es);
    if !r.0.status.Running? then r
    else var last := Flush(r.0); (last.0, r.1 + last.1)
  }

  // A decoder that has stopped ignores the rest of the stream.
  lemma {:induction false} StoppedStays(d: Decoder, es: seq<Event>, i: nat)
    requires Valid(d) && i <= |es| && !Decode(d, es[..i]).0.status.Running?
    ensures Decode(d, es) == Decode(d, es[..i])
    decreases |es|
  {
    if i < |es| {
      assert es[..|es|-1][..i] == es[..i];
      StoppedStays(d, es[..|es|-1], i);
      var before := Decode(d, es[..|es|-1]);
      assert before.1 + [] == before.1;
    } else {
      assert es[..i] == es;
    }
  }

  class ConverseStreamDecoder {
    const model: Option<string>
    const messageId: string
    var pendingStopReason: Option<string>
    var blockTypes: map<int, Kind>
    var positions: map<int, nat>
    var thinkingBlocks: seq<string>
    var providerReasoning: seq<string>
    var usage: Usage

    constructor (model: Option<string>, messageId: string)
      ensures State(Running) == NewDecoder(model, messageId)
    {
      this.model, this.messageId := model, messageId;
      pendingStopReason := None;
      blockTypes, positions := map[], map[];
      thinkingBlocks, providerReasoning := [], [];
      usage := ZERO_USAGE;
    }

    ghost function State(status: Status): Decoder
      reads this
    {
      Decoder(model, messageId, pendingStopReason, blockTypes, positions, thinkingBlocks, providerReasoning, usage,
              status)
    }

    // Runs the whole generator; `status` says how it left: at the end of the events, at an
    // exception event, or with a KeyError.
    method IterSseEvents(events: seq<Event>) returns (frames: seq<Frame>, status: Status)
      requires Valid(State(Running))
      modifies this
      ensures (State(status), frames) == DecodeAll(old(State(Running)), events)
      ensures Valid(State(status))
    {
      frames, status := Consume(events);
      if status.Running? {
        var last := FlushPendingStop();
        frames := frames + last;
      }
    }

    // The event loop alone, as far as a client that goes away lets it run.
    method Consume(events: seq<Event>) returns (frames: seq<Frame>, status: Status)
      requires Valid(State(Running))
      modifies this
      ensures (State(status), frames) == Decode(old(State(Running)), events)
      ensures Valid(State(status))
    {
      ghost var start := State(Running);
      frames, status := [], Running;
      for i := 0 to |events|
        invariant status.Running?
        invariant (State(Running), frames) == Decode(start, events[..i])
      {
        assert events[..i+1][..i] == events[..i];
        var yielded;
        yielded, status := Handle(events[i]);
        frames := frames + yielded;
        if !status.Running? {
          StoppedStays(start, events, i + 1);
          return;
        }
      }
      assert events[..|events|] == events;
    }

    // The body of the event loop.
    method Handle(event: Event) returns (yielded: seq<Frame>, status: Status)
      requires Valid(State(Running))
      modifies this
      ensures (State(status), yielded) == DecodeStep(old(State(Running)), event)
    {
      yielded, status := [], Running;
      match event {
        case MessageStart(role) =>
          yielded := [StartFrame(messageId, role.GetOr("assistant"), model)];
        case BlockStart(index, payload) =>
          NormalizeContentBlockStart(index, payload);
          yielded := [BlockStartFrame(index, Opened(payload))];
        case BlockDelta(index, delta) =>
          var found := NormalizeContentBlockDelta(index, delta);
          if !found { return [], Failed; }
          yielded := [DeltaFrame(index, DeltaKind(delta), DeltaText(delta))];
        case BlockStop(index) =>
          yielded := [BlockStopFrame(index)];
        case MessageStop(reason) =>
          pendingStopReason := reason;
        case Metadata(raw) =>
          usage := NormalizeUsage(raw);
          yielded := FlushPendingStop();
        case StreamException(message) =>
          return [ErrorFrame(message)], Ended;
        case OtherEvent =>
      }
    }

    method NormalizeContentBlockStart(index: int, start: StartPayload)
      modifies this
      ensures State(Running) == OpenStep(old(State(Running)), index, start)
      ensures blockTypes == old(blockTypes)[index := if start.ToolStart? then ToolKind
                                                     else if start.ReasoningStart? then ThinkingKind
                                                     else TextKind]
      ensures start.ReasoningStart? ==>
        && positions == old(positions)[index := |old(thinkingBlocks)|]
        && thinkingBlocks == old(thinkingBlocks) + [""] && providerReasoning == old(providerReasoning) + [""]
      ensures !start.ReasoningStart? ==>
        && positions == old(positions)
        && thinkingBlocks == old(thinkingBlocks) && providerReasoning == old(providerReasoning)
    {
      blockTypes := blockTypes[index := Opened(start).kind];
      if start.ReasoningStart? {
        positions := positions[index := |thinkingBlocks|];
        thinkingBlocks := thinkingBlocks + [""];
        providerReasoning := providerReasoning + [""];
      }
    }

    method NormalizeContentBlockDelta(index: int, delta: Delta) returns (found: bool)
      requires Valid(State(Running))
      modifies this
      ensures found <==> !delta.ReasoningDelta? || index in positions
      ensures delta.ReasoningDelta? && found ==>
        && positions == old(positions)
        && positions[index] < |old(thinkingBlocks)| == |old(providerReasoning)|
        && var p := positions[index];
        var text := if delta.reasoning.Some? then delta.reasoning.value else "";
        && thinkingBlocks == old(thinkingBlocks)[p := old(thinkingBlocks)[p] + text]
        && providerReasoning == old(providerReasoning)[p := old(providerReasoning)[p] + text]
      ensures State(if found then Running else Failed) == DecodeStep(old(State(Running)), BlockDelta(index, delta)).0
    {
      if delta.ReasoningDelta? {
        if index !in positions { return false; }
        var p := positions[index];
        thinkingBlocks := thinkingBlocks[p := thinkingBlocks[p] + DeltaText(delta)];
        providerReasoning := providerReasoning[p := providerReasoning[p] + DeltaText(delta)];
      }
      found := true;
    }

    method FlushPendingStop() returns (frames: seq<Frame>)
      modifies this
      ensures (State(Running), frames) == Flush(old(State(Running)))
      ensures old(pendingStopReason).Some? ==>
        && |frames| == 2 && frames[0].MessageDeltaFrame? && frames[1].MessageStopFrame?
        && StopSays(old(pendingStopReason).value, frames[0].stopReason) && frames[0].usage == usage
    {
      if pendingStopReason.None? { return []; }
      frames := [MessageDeltaFrame(StopReasonOut(pendingStopReason.value), usage), MessageStopFrame];
      pendingStopReason := None;
    }
  }
}
