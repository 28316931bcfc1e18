// What each frame of a stream says, by its fields, against the events it came from.
module FrameMeaning {
  import opened Wrappers
  import opened Converse
  import opened StreamDecoder

  // --- One frame for one event ------------------------------------------------

  // The events a client hears of at once; the others only matter for the stop.
  predicate Speaks(e: Event) { e.MessageStart? || e.BlockStart? || e.BlockDelta? || e.BlockStop? || e.StreamException? }

  predicate StartSays(start: StartPayload, b: OpenBlock) {
    match start
    case ToolStart(id, name) => b == OpenBlock(ToolKind, id, name)
    case ReasoningStart => b == OpenBlock(ThinkingKind, None, None)
    case TextStart => b == OpenBlock(TextKind, None, None)
    case OtherStart => b == OpenBlock(TextKind, None, None)
  }

  predicate TextSays(given: Option<string>, text: string) { if given.Some? then text == given.value else text == "" }

  predicate DeltaSays(delta: Delta, kind: Kind, text: string) {
    match delta
    case TextDelta(t) => kind == TextKind && text == t
    case ToolDelta(input) => kind == ToolKind && TextSays(input, text)
    case ReasoningDelta(t) => kind == ThinkingKind && TextSays(t, text)
    case OtherDelta => kind == TextKind && text == ""
  }

  predicate EventSays(model: Option<string>, messageId: string, e: Event, f: Frame) {
    match f
    case StartFrame(id, role, m) =>
      e.MessageStart? && id == messageId && m == model && role == (if e.role.Some? then e.role.value else "assistant")
    case BlockStartFrame(index, block) => e.BlockStart? && e.index == index && StartSays(e.start, block)
    case DeltaFrame(index, kind, text) => e.BlockDelta? && e.index == index && DeltaSays(e.delta, kind, text)
    case BlockStopFrame(index) => e == BlockStop(index)
    case ErrorFrame(message) => e == StreamException(message)
    case _ => false
  }

  // --- Stops ------------------------------------------------------------------

  // The reason of the last messageStop, unless a metadata event has come since.
  function PendingReason(es: seq<Event>): Option<string> {
    if es == [] then None
    else match es[|es|-1]
      case MessageStop(reason) => reason
      case Metadata(_) => None
      case _ => PendingReason(es[..|es|-1])
  }

  // The usage of the last metadata event.
  function LastUsage(es: seq<Event>): Option<RawUsage> {
    if es == [] then None
    else match es[|es|-1]
      case Metadata(raw) => raw
      case _ => LastUsage(es[..|es|-1])
  }

  // A stop: the reason in the client's vocabulary with the usage, and the end of the message.
  predicate StopFramesSay(reason: string, usage: Option<RawUsage>, fs: seq<Frame>) {
    && |fs| == 2 && fs[0].MessageDeltaFrame? && fs[1] == MessageStopFrame
    && StopSays(reason, fs[0].stopReason) && UsageSays(usage, fs[0].usage)
  }

  // --- A stream, event by event -----------------------------------------------

  // The metadata event e ends the message.
  predicate IsDue(earlier: seq<Event>, e: Event) { e.Metadata? && PendingReason(earlier).Some? }

  function Size(earlier: seq<Event>, e: Event): nat { if Speaks(e) then 1 else if IsDue(earlier, e) then 2 else 0 }

  // What a client hears of event e, after the earlier ones.
  predicate Tells(model: Option<string>, messageId: string, earlier: seq<Event>, e: Event, fs: seq<Frame>) {
    if Speaks(e) then |fs| == 1 && EventSays(model, messageId, e, fs[0])
    else if IsDue(earlier, e) then StopFramesSay(PendingReason(earlier).value, e.raw, fs)
    else fs == []
  }

  // The frames are what the events tell, one event after the other.
  predicate Told(model: Option<string>, messageId: string, es: seq<Event>, fs: seq<Frame>) {
    if es == [] then fs == []
    else
      var earlier, e := es[..|es|-1], es[|es|-1];
      var n := Size(earlier, e);
      && n <= |fs|
      && Told(model, messageId, earlier, fs[..|fs|-n])
      && Tells(model, messageId, earlier, e, fs[|fs|-n..])
  }

  // What the decoder remembers of the events.
  predicate Remembers(d: Decoder, model: Option<string>, messageId: string, es: seq<Event>) {
    d.model == model && d.messageId == messageId
    && d.pending == PendingReason(es) && UsageSays(LastUsage(es), d.usage)
  }

  lemma StepTells(d: Decoder, model: Option<string>, messageId: string, es: seq<Event>, e: Event)
    requires Valid(d) && Remembers(d, model, messageId, es) && d.status.Running?
    requires !DecodeStep(d, e).0.status.Failed?
    ensures Tells(model, messageId, es, e, DecodeStep(d, e).1) && |DecodeStep(d, e).1| == Size(es, e)
    ensures Remembers(DecodeStep(d, e).0, model, messageId, es + [e])
  {
    assert (es + [e])[..|es|] == es;
  }

  lemma ToldNext(model: Option<string>, messageId: string, es: seq<Event>, e: Event, fs: seq<Frame>, more: seq<Frame>)
    requires Told(model, messageId, es, fs) && Tells(model, messageId, es, e, more) && |more| == Size(es, e)
    ensures Told(model, messageId, es + [e], fs + more)
  {
    assert (es + [e])[..|es|] == es;
    assert (fs + more)[..|fs + more|-|more|] == fs && (fs + more)[|fs + more|-|more|..] == more;
  }

  // The decoder handled every one of the events, and failed at none.
  predicate Handled(model: Option<string>, messageId: string, es: seq<Event>) {
    && (es != [] ==> Decode(NewDecoder(model, messageId), es[..|es|-1]).0.status.Running?)
    && !Decode(NewDecoder(model, messageId), es).0.status.Failed?
  }

  lemma HandledBefore(model: Option<string>, messageId: string, es: seq<Event>)
    requires es != [] && Handled(model, messageId, es)
    ensures Handled(model, messageId, es[..|es|-1])
  {
    var init := es[..|es|-1];
    if init != [] {
      var before := Decode(NewDecoder(model, messageId), init[..|init|-1]);
      assert !before.0.status.Running? ==> DecodeStep(before.0, init[|init|-1]).0 == before.0;
    }
  }

  // As far as a stream is handled, the client is told each event by the fields of its frames, in order and nothing
  // else, and the usage kept is that of the last metadata event.
  lemma {:induction false} StreamIsTold(model: Option<string>, messageId: string, es: seq<Event>)
    requires Handled(model, messageId, es)
    ensures var r := Decode(NewDecoder(model, messageId), es);
      Told(model, messageId, es, r.1) && Remembers(r.0, model, messageId, es)
  {
    if es != [] {
      var init, e := es[..|es|-1], es[|es|-1];
      var before := Decode(NewDecoder(model, messageId), init);
      HandledBefore(model, messageId, es);
      StreamIsTold(model, messageId, init);
      StepTells(before.0, model, messageId, init, e);
      ToldNext(model, messageId, init, e, before.1, DecodeStep(before.0, e).1);
      assert es == init + [e];
    }
  }

  // A whole stream that neither breaks off nor fails: a reason that is still pending at the end makes one more stop.
  lemma WholeStreamIsTold(model: Option<string>, messageId: string, es: seq<Event>)
    requires DecodeAll(NewDecoder(model, messageId), es).0.status.Running?
    ensures var r := DecodeAll(NewDecoder(model, messageId), es);
      var n := if PendingReason(es).Some? then 2 else 0;
      && n <= |r.1| && Told(model, messageId, es, r.1[..|r.1|-n])
      && (n == 2 ==> StopFramesSay(PendingReason(es).value, LastUsage(es), r.1[|r.1|-2..]))
      && UsageSays(LastUsage(es), r.0.usage)
  {
    var r := Decode(NewDecoder(model, messageId), es);
    RunningIsHandled(model, messageId, es);
    StreamIsTold(model, messageId, es);
    var last := Flush(r.0).1;
    assert (r.1 + last)[..|r.1|] == r.1 && (r.1 + last)[|r.1|..] == last;
  }

  lemma RunningIsHandled(model: Option<string>, messageId: string, es: seq<Event>)
    requires Decode(NewDecoder(model, messageId), es).0.status.Running?
    ensures Handled(model, messageId, es)
  {
    if es != [] {
      var before := Decode(NewDecoder(model, messageId), es[..|es|-1]);
      assert DecodeStep(before.0, es[|es|-1]).0.status.Running?;
    }
  }

  // Only one list of frames tells a stream.
  lemma {:induction false} ToldOnce(model: Option<string>, messageId: string, es: seq<Event>, fs: seq<Frame>,
                                    gs: seq<Frame>)
    requires Told(model, messageId, es, fs) && Told(model, messageId, es, gs)
    ensures fs == gs
  {
    if es != [] {
      var earlier, e := es[..|es|-1], es[|es|-1];
      var n := Size(earlier, e);
      var f, g := fs[|fs|-n..], gs[|gs|-n..];
      ToldOnce(model, messageId, earlier, fs[..|fs|-n], gs[..|gs|-n]);
      TellsOnce(model, messageId, earlier, e, f, g);
      assert fs == fs[..|fs|-n] + f && gs == gs[..|gs|-n] + g;
    }
  }

  lemma TellsOnce(model: Option<string>, messageId: string, earlier: seq<Event>, e: Event, fs: seq<Frame>,
                  gs: seq<Frame>)
    requires Tells(model, messageId, earlier, e, fs) && Tells(model, messageId, earlier, e, gs)
    ensures fs == gs
  {
    if Speaks(e) { assert fs == [fs[0]] && gs == [gs[0]]; }
  }
}
