// What every decoded stream satisfies, whatever events Bedrock sends.
module DecoderInvariants {
  import opened Wrappers
  import opened Converse
  import opened StreamDecoder

  predicate IsThinkingStart(f: Frame) { f.BlockStartFrame? && f.block.kind == ThinkingKind }

  predicate IsThinkingDelta(f: Frame) { f.DeltaFrame? && f.kind == ThinkingKind }

  // The positions of the frames that start a thinking block.
  function Starts(fs: seq<Frame>): seq<nat> {
    if fs == [] then []
    else Starts(fs[..|fs|-1]) + if IsThinkingStart(fs[|fs|-1]) then [|fs|-1] else []
  }

  // The latest thinking start for a block index, or -1.
  function LastStart(fs: seq<Frame>, index: int): int {
    if fs == [] then -1
    else if IsThinkingStart(fs[|fs|-1]) && fs[|fs|-1].index == index then |fs|-1
    else LastStart(fs[..|fs|-1], index)
  }

  // The concatenated thinking deltas that belong to the block started at frame f:
  // those with its index, after it, and before the index is started again.
  function ThinkingSince(fs: seq<Frame>, f: nat): string
    requires f < |fs|
  {
    if |fs| == f + 1 then ""
    else
      var (earlier, last) := (fs[..|fs|-1], fs[|fs|-1]);
      ThinkingSince(earlier, f) +
      if IsThinkingDelta(last) && LastStart(earlier, last.index) == f then last.text else ""
  }

  predicate Ascending(s: seq<nat>, bound: nat) {
    (forall p | 0 <= p < |s| :: s[p] < bound) && forall p, q | 0 <= p < q < |s| :: s[p] < s[q]
  }

  lemma {:induction false} StartsAscending(fs: seq<Frame>)
    ensures Ascending(Starts(fs), |fs|)
  {
    if fs != [] { StartsAscending(fs[..|fs|-1]); }
  }

  // The decoder's records are what the frames already emitted say.
  ghost predicate Records(d: Decoder, fs: seq<Frame>) {
    var starts := Starts(fs);
    && Ascending(starts, |fs|)
    && |d.thinking| == |starts| && d.reasoning == d.thinking
    && (forall p | 0 <= p < |starts| :: d.thinking[p] == ThinkingSince(fs, starts[p]))
    && (forall i :: if i in d.positions then d.positions[i] < |starts| && LastStart(fs, i) == starts[d.positions[i]]
                    else LastStart(fs, i) == -1)
  }

  lemma RecordsIgnore(d: Decoder, fs: seq<Frame>, f: Frame)
    requires Records(d, fs) && !IsThinkingStart(f) && !IsThinkingDelta(f)
    ensures Records(d, fs + [f])
  {
    assert (fs + [f])[..|fs|] == fs;
    assert Starts(fs + [f]) == Starts(fs);
    forall p | 0 <= p < |Starts(fs)| ensures d.thinking[p] == ThinkingSince(fs + [f], Starts(fs)[p]) {
      assert ThinkingSince(fs + [f], Starts(fs)[p]) == ThinkingSince(fs, Starts(fs)[p]) + "";
    }
    forall i ensures LastStart(fs + [f], i) == LastStart(fs, i) {}
  }

  lemma RecordsStart(d: Decoder, fs: seq<Frame>, index: int)
    requires Records(d, fs)
    ensures Records(OpenStep(d, index, ReasoningStart), fs + [BlockStartFrame(index, Opened(ReasoningStart))])
  {
    var d', f := OpenStep(d, index, ReasoningStart), BlockStartFrame(index, Opened(ReasoningStart));
    var fs' := fs + [f];
    assert fs'[..|fs|] == fs;
    assert Starts(fs') == Starts(fs) + [|fs|];
    forall p | 0 <= p < |Starts(fs)| ensures d'.thinking[p] == ThinkingSince(fs', Starts(fs)[p]) {
      assert ThinkingSince(fs', Starts(fs)[p]) == ThinkingSince(fs, Starts(fs)[p]) + "";
    }
    forall i ensures LastStart(fs', i) == if i == index then |fs| else LastStart(fs, i) {}
  }

  lemma RecordsDelta(d: Decoder, fs: seq<Frame>, index: int, delta: Delta)
    requires Valid(d) && d.status.Running? && Records(d, fs) && delta.ReasoningDelta? && index in d.positions
    ensures var r := DecodeStep(d, BlockDelta(index, delta)); Records(r.0, fs + r.1)
  {
    var r := DecodeStep(d, BlockDelta(index, delta));
    var p0, t, starts := d.positions[index], DeltaText(delta), Starts(fs);
    var fs' := fs + [DeltaFrame(index, ThinkingKind, t)];
    assert fs'[..|fs|] == fs;
    assert r.1 == [DeltaFrame(index, ThinkingKind, t)];
    assert Starts(fs') == starts;
    forall p | 0 <= p < |starts| ensures r.0.thinking[p] == ThinkingSince(fs', starts[p]) {
      if p != p0 {
        assert starts[p] != starts[p0];
        assert ThinkingSince(fs', starts[p]) == ThinkingSince(fs, starts[p]) + "";
      }
    }
    forall i ensures LastStart(fs', i) == LastStart(fs, i) {}
  }

  lemma RecordsFlush(d: Decoder, fs: seq<Frame>)
    requires Records(d, fs)
    ensures Records(Flush(d).0, fs + Flush(d).1)
  {
    if d.pending.Some? {
      var stop := MessageDeltaFrame(StopReasonOut(d.pending.value), d.usage);
      RecordsIgnore(d, fs, stop);
      RecordsIgnore(d, fs + [stop], MessageStopFrame);
      assert fs + [stop] + [MessageStopFrame] == fs + Flush(d).1;
    } else {
      assert fs + [] == fs;
    }
  }

  lemma RecordsStep(d: Decoder, fs: seq<Frame>, e: Event)
    requires Valid(d) && Records(d, fs)
    ensures var r := DecodeStep(d, e); Records(r.0, fs + r.1)
  {
    var r := DecodeStep(d, e);
    if r.1 == [] { assert fs + r.1 == fs; }
    if d.status.Running? {
      match e
      case BlockStart(index, start) =>
        if start.ReasoningStart? { RecordsStart(d, fs, index); } else { RecordsIgnore(d, fs, r.1[0]); }
      case BlockDelta(index, delta) =>
        if !delta.ReasoningDelta? { RecordsIgnore(d, fs, r.1[0]); }
        else if index in d.positions { RecordsDelta(d, fs, index, delta); }
      case Metadata(raw) =>
        var d1 := d.(usage := NormalizeUsage(raw));
        assert Records(d1, fs);
        RecordsFlush(d1, fs);
      case MessageStop(_) =>
      case OtherEvent =>
      case _ => RecordsIgnore(d, fs, r.1[0]);
    }
  }

  // After any prefix of any stream, thinking_blocks and provider_reasoning are equal, have one
  // element per thinking block started, and each element is the concatenation of the thinking
  // deltas emitted for that block since its start.
  lemma {:induction false} ThinkingIsWhatWasEmitted(model: Option<string>, messageId: string, es: seq<Event>)
    ensures var r := Decode(NewDecoder(model, messageId), es); Records(r.0, r.1)
  {
    if es != [] {
      ThinkingIsWhatWasEmitted(model, messageId, es[..|es|-1]);
      var before := Decode(NewDecoder(model, messageId), es[..|es|-1]);
      RecordsStep(before.0, before.1, es[|es|-1]);
    }
  }

  // --- Stops and errors -------------------------------------------------------

  // message_delta and message_stop come only as adjacent pairs, in that order.
  predicate StopsPaired(fs: seq<Frame>) {
    && (forall k | 0 <= k < |fs| && fs[k].MessageStopFrame? :: k > 0 && fs[k-1].MessageDeltaFrame?)
    && (forall k | 0 <= k < |fs| && fs[k].MessageDeltaFrame? :: k + 1 < |fs| && fs[k+1].MessageStopFrame?)
  }

  // An error frame ends the stream, and comes exactly from an exception event.
  predicate ErrorEnds(d: Decoder, fs: seq<Frame>) {
    && (forall k | 0 <= k < |fs| && fs[k].ErrorFrame? :: k == |fs| - 1)
    && (d.status.Ended? <==> fs != [] && fs[|fs|-1].ErrorFrame?)
  }

  lemma StopsPairedAppend(a: seq<Frame>, b: seq<Frame>)
    requires StopsPaired(a) && StopsPaired(b)
    ensures StopsPaired(a + b)
  {
    var fs := a + b;
    forall k | |a| <= k < |fs| ensures fs[k] == b[k - |a|] {}
    forall k | 0 <= k < |fs| && fs[k].MessageStopFrame? ensures k > 0 && fs[k-1].MessageDeltaFrame? {
      if k >= |a| { assert b[k - |a|].MessageStopFrame?; assert b[k - |a| - 1].MessageDeltaFrame?; }
    }
    forall k | 0 <= k < |fs| && fs[k].MessageDeltaFrame? ensures k + 1 < |fs| && fs[k+1].MessageStopFrame? {
      if k < |a| { assert a[k+1].MessageStopFrame?; }
    }
  }

  lemma StepFramesPaired(d: Decoder, e: Event)
    requires Valid(d)
    ensures StopsPaired(DecodeStep(d, e).1) && StopsPaired(Flush(d).1)
  {}

  lemma StepErrorEnds(d: Decoder, fs: seq<Frame>, e: Event)
    requires Valid(d) && ErrorEnds(d, fs)
    ensures ErrorEnds(DecodeStep(d, e).0, fs + DecodeStep(d, e).1)
  {
    assert fs + [] == fs;
  }

  lemma {:induction false} PrefixFrames(d: Decoder, es: seq<Event>)
    requires Valid(d) && d.status.Running?
    ensures StopsPaired(Decode(d, es).1)
    ensures ErrorEnds(Decode(d, es).0, Decode(d, es).1)
  {
    if es != [] {
      PrefixFrames(d, es[..|es|-1]);
      var before := Decode(d, es[..|es|-1]);
      var r := DecodeStep(before.0, es[|es|-1]);
      StepFramesPaired(before.0, es[|es|-1]);
      StopsPairedAppend(before.1, r.1);
      StepErrorEnds(before.0, before.1, es[|es|-1]);
    }
  }

  // In every whole stream the stop frames come in pairs, and nothing follows an error frame.
  lemma StreamFrames(d: Decoder, es: seq<Event>)
    requires Valid(d) && d.status.Running?
    ensures StopsPaired(DecodeAll(d, es).1)
    ensures ErrorEnds(DecodeAll(d, es).0, DecodeAll(d, es).1)
  {
    PrefixFrames(d, es);
    var r := Decode(d, es);
    StepFramesPaired(r.0, OtherEvent);
    StopsPairedAppend(r.1, Flush(r.0).1);
  }

  // --- One stop for one messageStop -------------------------------------------

  function CountStopEvents(es: seq<Event>): nat {
    if es == [] then 0
    else CountStopEvents(es[..|es|-1]) + if es[|es|-1].MessageStop? then 1 else 0
  }

  function CountStopFrames(fs: seq<Frame>): nat {
    if fs == [] then 0
    else CountStopFrames(fs[..|fs|-1]) + if fs[|fs|-1].MessageDeltaFrame? then 1 else 0
  }

  lemma {:induction false} CountStopFramesAppend(a: seq<Frame>, b: seq<Frame>)
    ensures CountStopFrames(a + b) == CountStopFrames(a) + CountStopFrames(b)
  {
    if b == [] {
      assert a + b == a;
    } else {
      assert (a + b)[..|a + b|-1] == a + b[..|b|-1];
      CountStopFramesAppend(a, b[..|b|-1]);
    }
  }

  function PendingCount(d: Decoder): nat { if d.pending.Some? then 1 else 0 }

  function StopCount(f: Frame): nat { if f.MessageDeltaFrame? then 1 else 0 }

  lemma CountShort(fs: seq<Frame>)
    requires |fs| <= 2
    ensures |fs| == 0 ==> CountStopFrames(fs) == 0
    ensures |fs| == 1 ==> CountStopFrames(fs) == StopCount(fs[0])
    ensures |fs| == 2 ==> CountStopFrames(fs) == StopCount(fs[0]) + StopCount(fs[1])
  {
    if |fs| == 1 {
      assert CountStopFrames(fs[..0]) == 0;
    } else if |fs| == 2 {
      CountShort(fs[..1]);
    }
  }

  lemma StepStops(d: Decoder, e: Event)
    requires Valid(d) && DecodeStep(d, e).0.status.Running?
    ensures var r := DecodeStep(d, e);
            CountStopFrames(r.1) + PendingCount(r.0) ==
            if e.MessageStop? then (if e.reason.Some? then 1 else 0) else PendingCount(d)
  {
    CountShort(DecodeStep(d, e).1);
  }

  lemma {:induction false} StopsSoFar(d: Decoder, es: seq<Event>)
    requires Valid(d) && d.status.Running? && d.pending.None? && Decode(d, es).0.status.Running?
    requires CountStopEvents(es) <= 1 && forall e | e in es && e.MessageStop? :: e.reason.Some?
    ensures CountStopFrames(Decode(d, es).1) + PendingCount(Decode(d, es).0) == CountStopEvents(es)
  {
    if es != [] {
      var init := es[..|es|-1];
      StopsSoFar(d, init);
      var before := Decode(d, init);
      assert es[|es|-1] in es;
      StepStops(before.0, es[|es|-1]);
      CountStopFramesAppend(before.1, DecodeStep(before.0, es[|es|-1]).1);
    }
  }

  function CountMessageStops(fs: seq<Frame>): nat {
    if fs == [] then 0
    else CountMessageStops(fs[..|fs|-1]) + if fs[|fs|-1].MessageStopFrame? then 1 else 0
  }

  // Where stops are paired, there are as many message_stops as message_deltas.
  lemma {:induction false} PairsMatch(fs: seq<Frame>)
    requires StopsPaired(fs)
    ensures CountMessageStops(fs) == CountStopFrames(fs)
  {
    if fs != [] {
      var n := |fs|;
      if fs[n-1].MessageStopFrame? {
        var init := fs[..n-2];
        assert fs[..n-1][..n-2] == init && fs[..n-1][n-2] == fs[n-2];
        forall k | 0 <= k < |init| && init[k].MessageDeltaFrame? ensures k + 1 < |init| && init[k+1].MessageStopFrame? {
          assert fs[k].MessageDeltaFrame? && fs[k+1].MessageStopFrame?;
        }
        PairsMatch(init);
      } else {
        var init := fs[..n-1];
        assert !fs[n-1].MessageDeltaFrame?;
        forall k | 0 <= k < |init| && init[k].MessageDeltaFrame? ensures k + 1 < |init| && init[k+1].MessageStopFrame? {
          assert fs[k].MessageDeltaFrame? && fs[k+1].MessageStopFrame?;
        }
        PairsMatch(init);
      }
    }
  }

  // A stream with one messageStop that carries a reason, read to its end without an
  // exception or a KeyError, yields exactly one message_delta and one message_stop, next to each other.
  lemma OneStopPair(d: Decoder, es: seq<Event>)
    requires Valid(d) && d.status.Running? && d.pending.None? && DecodeAll(d, es).0.status.Running?
    requires CountStopEvents(es) == 1 && forall e | e in es && e.MessageStop? :: e.reason.Some?
    ensures CountStopFrames(DecodeAll(d, es).1) == 1 == CountMessageStops(DecodeAll(d, es).1)
    ensures StopsPaired(DecodeAll(d, es).1)
  {
    StopsSoFar(d, es);
    var r := Decode(d, es);
    CountStopFramesAppend(r.1, Flush(r.0).1);
    CountShort(Flush(r.0).1);
    StreamFrames(d, es);
    PairsMatch(DecodeAll(d, es).1);
  }

  // --- How a stream ends ------------------------------------------------------

  // Some reasoning block was started under this index.
  predicate ReasoningStarted(es: seq<Event>, index: int) {
    exists k | 0 <= k < |es| :: es[k] == BlockStart(index, ReasoningStart)
  }

  // Event i is a reasoning delta for an index that no earlier event started reasoning under.
  predicate Orphan(es: seq<Event>, i: nat) {
    i < |es| && es[i].BlockDelta? && es[i].delta.ReasoningDelta? && !ReasoningStarted(es[..i], es[i].index)
  }

  predicate Stops(es: seq<Event>, i: nat) { i < |es| && (es[i].StreamException? || Orphan(es, i)) }

  // Event i is the first that stops the decoder.
  predicate FirstStop(es: seq<Event>, i: nat) { Stops(es, i) && forall k | 0 <= k < i :: !Stops(es, k) }

  lemma StopsSnoc(init: seq<Event>, e: Event, i: nat)
    requires i < |init|
    ensures Stops(init + [e], i) == Stops(init, i) && Orphan(init + [e], i) == Orphan(init, i)
  {
    assert (init + [e])[..i] == init[..i];
  }

  lemma StartedSnoc(init: seq<Event>, e: Event, index: int)
    ensures ReasoningStarted(init + [e], index) <==>
            ReasoningStarted(init, index) || e == BlockStart(index, ReasoningStart)
  {
    var es := init + [e];
    assert es[|init|] == e && forall k | 0 <= k < |init| :: es[k] == init[k];
  }

  lemma FirstStopIsUnique(es: seq<Event>, i: nat, k: nat)
    requires FirstStop(es, i) && FirstStop(es, k)
    ensures i == k
  {
  }

  // While nothing stops it, the decoder runs on and knows the indices reasoning was started under.
  lemma {:induction false} RunsWhile(model: Option<string>, messageId: string, es: seq<Event>)
    ensures var d := Decode(NewDecoder(model, messageId), es).0;
      && (d.status.Running? <==> forall i: nat | i < |es| :: !Stops(es, i))
      && (d.status.Running? ==> forall index :: index in d.positions <==> ReasoningStarted(es, index))
  {
    if es != [] {
      var init, e := es[..|es|-1], es[|es|-1];
      assert es == init + [e] && es[..|init|] == init;
      RunsWhile(model, messageId, init);
      forall i: nat | i < |init| ensures Stops(es, i) == Stops(init, i) { StopsSnoc(init, e, i); }
      forall index
        ensures ReasoningStarted(es, index) <==> ReasoningStarted(init, index) || e == BlockStart(index, ReasoningStart)
      {
        StartedSnoc(init, e, index);
      }
      assert Decode(NewDecoder(model, messageId), es).0.status.Running? <==>
             Decode(NewDecoder(model, messageId), init).0.status.Running? && !Stops(es, |init|);
    }
  }

  // A decoder that stopped did so at the first event that stops it, and in its way.
  lemma {:induction false} StoppedAt(model: Option<string>, messageId: string, es: seq<Event>) returns (i: nat)
    requires !Decode(NewDecoder(model, messageId), es).0.status.Running?
    ensures FirstStop(es, i)
    ensures Decode(NewDecoder(model, messageId), es).0.status == if Orphan(es, i) then Failed else Ended
  {
    var init, e := es[..|es|-1], es[|es|-1];
    assert es == init + [e] && es[..|init|] == init;
    if Decode(NewDecoder(model, messageId), init).0.status.Running? {
      RunsWhile(model, messageId, init);
      i := |init|;
    } else {
      i := StoppedAt(model, messageId, init);
    }
    forall k: nat | k < |init| ensures Stops(es, k) == Stops(init, k) && Orphan(es, k) == Orphan(init, k) {
      StopsSnoc(init, e, k);
    }
  }

  // The decoder runs on exactly while nothing stops it; it ends at an exception event, and fails with a KeyError at a
  // reasoning delta whose index has no reasoning start before it, whichever comes first.
  lemma EndsExactly(model: Option<string>, messageId: string, es: seq<Event>)
    ensures var status := Decode(NewDecoder(model, messageId), es).0.status;
      && (status.Running? <==> forall i: nat | i < |es| :: !Stops(es, i))
      && (status.Ended? <==> exists i: nat :: FirstStop(es, i) && es[i].StreamException?)
      && (status.Failed? <==> exists i: nat :: FirstStop(es, i) && Orphan(es, i))
  {
    RunsWhile(model, messageId, es);
    if !Decode(NewDecoder(model, messageId), es).0.status.Running? {
      var i := StoppedAt(model, messageId, es);
      forall k: nat | FirstStop(es, k) ensures k == i { FirstStopIsUnique(es, i, k); }
    }
  }
}
