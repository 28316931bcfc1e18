// Server-sent-event framing, and a parser for it after sections 9.2.5 and 9.2.6
// of the WHATWG HTML Living Standard.
module SseFraming {
  // _sse_frame, with the payload already serialized.
  function SseFrame(name: string, payload: string): string {
    EventLine(name) + "\n" + DataLine(payload) + "\n\n"
  }

  function EventLine(name: string): string { "event: " + name }

  function DataLine(payload: string): string { "data: " + payload }

  datatype Message = Message(kind: string, data: string)

  function Encode(ms: seq<Message>): string {
    if ms == [] then "" else SseFrame(ms[0].kind, ms[0].data) + Encode(ms[1..])
  }

  // --- The parser -------------------------------------------------------------

  const BYTE_ORDER_MARK := '\U{FEFF}'

  predicate IsLineEnd(c: char) { c == '\r' || c == '\n' }

  function LineLength(s: string): (k: nat)
    ensures k <= |s|
    ensures k < |s| ==> IsLineEnd(s[k])
    ensures forall j | 0 <= j < k :: !IsLineEnd(s[j])
  {
    if s == [] || IsLineEnd(s[0]) then 0 else 1 + LineLength(s[1..])
  }

  // The terminated lines; CRLF, LF and CR each end a line.
  function SplitLines(s: string): seq<string> {
    var k := LineLength(s);
    if k == |s| then []
    else if s[k] == '\r' && k + 1 < |s| && s[k+1] == '\n' then [s[..k]] + SplitLines(s[k+2..])
    else [s[..k]] + SplitLines(s[k+1..])
  }

  datatype Buffers = Buffers(kind: string, data: string, dispatched: seq<Message>)

  function Dispatch(b: Buffers): Buffers {
    if b.data == "" then Buffers("", "", b.dispatched)
    else
      var data := if b.data[|b.data|-1] == '\n' then b.data[..|b.data|-1] else b.data;
      Buffers("", "", b.dispatched + [Message(if b.kind == "" then "message" else b.kind, data)])
  }

  function ProcessField(b: Buffers, field: string, value: string): Buffers {
    if field == "event" then b.(kind := value)
    else if field == "data" then b.(data := b.data + value + "\n")
    else b
  }

  function ColonIndex(s: string): (k: nat)
    ensures k <= |s|
    ensures k < |s| ==> s[k] == ':'
    ensures forall j | 0 <= j < k :: s[j] != ':'
  {
    if s == [] || s[0] == ':' then 0 else 1 + ColonIndex(s[1..])
  }

  function ProcessLine(b: Buffers, line: string): Buffers {
    if line == "" then Dispatch(b)
    else
      var k := ColonIndex(line);
      if k == 0 then b
      else if k == |line| then ProcessField(b, line, "")
      else
        var value := line[k+1..];
        ProcessField(b, line[..k], if value != "" && value[0] == ' ' then value[1..] else value)
  }

  function ProcessLines(b: Buffers, lines: seq<string>): Buffers
    decreases |lines|
  {
    if lines == [] then b else ProcessLines(ProcessLine(b, lines[0]), lines[1..])
  }

  function ParseSse(stream: string): seq<Message> {
    var body := if stream != "" && stream[0] == BYTE_ORDER_MARK then stream[1..] else stream;
    ProcessLines(Buffers("", "", []), SplitLines(body)).dispatched
  }

  // --- Round trip -------------------------------------------------------------

  predicate OneLine(s: string) { forall j | 0 <= j < |s| :: !IsLineEnd(s[j]) }

  predicate Framable(ms: seq<Message>) {
    forall i | 0 <= i < |ms| :: OneLine(ms[i].kind) && OneLine(ms[i].data)
  }

  // A parser calls an event without a name "message".
  function Named(ms: seq<Message>): (r: seq<Message>)
    ensures |r| == |ms|
  {
    seq(|ms|, i requires 0 <= i < |ms| => NamedOne(ms[i]))
  }

  lemma LineOff(s: string, line: string, rest: string)
    requires s == line + "\n" + rest && OneLine(line)
    ensures SplitLines(s) == [line] + SplitLines(rest)
  {
    assert s[|line|] == '\n' && forall j | 0 <= j < |line| :: s[j] == line[j];
    assert LineLength(s) == |line|;
    assert s[..|line|] == line && s[|line|+1..] == rest;
  }

  lemma FieldLine(b: Buffers, line: string, field: string, value: string)
    requires field != "" && ':' !in field && line == field + ": " + value
    ensures ProcessLine(b, line) == ProcessField(b, field, value)
  {
    assert line[|field|] == ':' && forall j | 0 <= j < |field| :: line[j] == field[j] && field[j] in field;
    assert ColonIndex(line) == |field|;
    assert line[..|field|] == field && line[|field|+1..] == " " + value;
    assert (" " + value)[1..] == value;
  }

  // Two lines and a blank line come off the front.
  lemma ThreeLinesOff(e: string, d: string, rest: string)
    requires OneLine(e) && OneLine(d)
    ensures SplitLines(e + "\n" + d + "\n\n" + rest) == [e] + ([d] + ([""] + SplitLines(rest)))
  {
    var blank := "\n" + rest;
    var second := d + "\n" + blank;
    assert blank == "" + "\n" + rest;
    assert e + "\n" + d + "\n\n" + rest == e + "\n" + second by {
      assert "\n\n" + rest == "\n" + blank;
    }
    LineOff(e + "\n" + second, e, second);
    LineOff(second, d, blank);
    LineOff(blank, "", rest);
  }

  lemma FrameLines(m: Message, rest: string)
    requires OneLine(m.kind) && OneLine(m.data)
    ensures SplitLines(SseFrame(m.kind, m.data) + rest) ==
            [EventLine(m.kind)] + ([DataLine(m.data)] + ([""] + SplitLines(rest)))
  {
    assert OneLine(EventLine(m.kind)) && OneLine(DataLine(m.data));
    ThreeLinesOff(EventLine(m.kind), DataLine(m.data), rest);
  }

  lemma ProcessFirst(b: Buffers, line: string, lines: seq<string>)
    ensures ProcessLines(b, [line] + lines) == ProcessLines(ProcessLine(b, line), lines)
  {
    assert ([line] + lines)[1..] == lines;
  }

  function NamedOne(m: Message): Message { if m.kind == "" then Message("message", m.data) else m }

  // The three lines of a frame dispatch its message and leave the buffers empty.
  lemma FrameDispatches(sent: seq<Message>, m: Message, lines: seq<string>)
    ensures ProcessLines(Buffers("", "", sent), [EventLine(m.kind)] + ([DataLine(m.data)] + ([""] + lines))) ==
            ProcessLines(Buffers("", "", sent + [NamedOne(m)]), lines)
  {
    var b0 := Buffers("", "", sent);
    var b1 := b0.(kind := m.kind);
    var b2 := b1.(data := "" + m.data + "\n");
    FieldLine(b0, EventLine(m.kind), "event", m.kind);
    FieldLine(b1, DataLine(m.data), "data", m.data);
    ProcessFirst(b0, EventLine(m.kind), [DataLine(m.data)] + ([""] + lines));
    ProcessFirst(b1, DataLine(m.data), [""] + lines);
    ProcessFirst(b2, "", lines);
    assert b2.data[..|b2.data|-1] == m.data;
  }

  // What the parser has after reading the frames of ms, having dispatched `sent` before.
  function Reading(sent: seq<Message>, text: string): seq<Message> {
    ProcessLines(Buffers("", "", sent), SplitLines(text)).dispatched
  }

  lemma FrameRead(sent: seq<Message>, m: Message, rest: string)
    requires OneLine(m.kind) && OneLine(m.data)
    ensures Reading(sent, SseFrame(m.kind, m.data) + rest) == Reading(sent + [NamedOne(m)], rest)
  {
    FrameLines(m, rest);
    FrameDispatches(sent, m, SplitLines(rest));
  }

  lemma {:induction false} LinesOfEncode(ms: seq<Message>, sent: seq<Message>)
    requires Framable(ms)
    ensures Reading(sent, Encode(ms)) == sent + Named(ms)
  {
    if ms == [] {
      assert sent + Named(ms) == sent;
    } else {
      var tail := ms[1..];
      FrameRead(sent, ms[0], Encode(tail));
      LinesOfEncode(tail, sent + [NamedOne(ms[0])]);
      assert Named(ms) == [NamedOne(ms[0])] + Named(tail);
    }
  }

  // Parsing the concatenated frames of any newline-free messages dispatches exactly those
  // messages, in order and whole.
  lemma FramingRoundTrip(ms: seq<Message>)
    requires Framable(ms)
    ensures ParseSse(Encode(ms)) == Named(ms)
    ensures (forall m | m in ms :: m.kind != "") ==> ParseSse(Encode(ms)) == ms
  {
    LinesOfEncode(ms, []);
    assert [] + Named(ms) == Named(ms);
    if ms != [] {
      assert Encode(ms)[0] == 'e';
    }
  }
}
