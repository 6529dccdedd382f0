/**
 * Reading one streamed completion: server-sent-event lines in, chunks out.
 *
 * The lines follow the subset of section 9.2.6 of the WHATWG HTML Standard the gateway uses: one
 * `data:` line per event. JSON decoding and JSON validity are whatever functions the caller supplies.
 */
module Stream {
  import opened Wrappers
  import opened Conversation
  import opened SseLines

  datatype StreamChunk =
    | Text(text: string)
    | Reasoning(text: string)
    | Call(call: ToolCall)
    | Done(finish: string)
    | Error(code: string, message: string)
    | Usage(tokens: nat)

  datatype Choice = Choice(content: string, reasoning: string, toolCalls: seq<ToolCall>, finish: string)

  datatype ErrorFrame = ErrorFrame(code: string, message: string)

  datatype Frame = Frame(choices: seq<Choice>, error: Option<ErrorFrame>, usage: Option<nat>)

  /** How payloads decode, and which tool arguments are complete JSON. */
  datatype Codec = Codec(decode: string -> Option<Frame>, valid: string -> bool)

  // ---- lines ----------------------------------------------------------------------------------

  const SENTINEL := "[DONE]"

  datatype SseLine = Ignored | Sentinel | Malformed | Failed(error: ErrorFrame) | Data(frame: Frame)

  /** What one raw line is to the reader. */
  function Classify(codec: Codec, raw: string): SseLine {
    var line := Trim(raw);
    if line == "" || !(DATA <= line) then Ignored
    else
      var payload := Trim(line[|DATA|..]);
      if payload == SENTINEL then Sentinel
      else
        match codec.decode(payload)
        case None => Malformed
        case Some(f) => if f.error.Some? then Failed(f.error.value) else Data(f)
  }

  // ---- chunks ---------------------------------------------------------------------------------

  predicate AllValid(codec: Codec, calls: seq<ToolCall>) {
    forall i :: 0 <= i < |calls| ==> codec.valid(calls[i].arguments)
  }

  const INCOMPLETE := "tool_call_incomplete"

  /** The calls up to the first whose arguments are not complete JSON, which is refused. */
  function CallChunks(codec: Codec, calls: seq<ToolCall>): seq<StreamChunk> {
    if calls == [] then []
    else if !codec.valid(calls[0].arguments) then [Error(INCOMPLETE, calls[0].name)]
    else [Call(calls[0])] + CallChunks(codec, calls[1..])
  }

  /** A refused call ends the frame; otherwise reasoning, text and the finish reason follow the calls. */
  function DeltaChunks(codec: Codec, c: Choice): seq<StreamChunk> {
    if !AllValid(codec, c.toolCalls) then CallChunks(codec, c.toolCalls)
    else CallChunks(codec, c.toolCalls) + ProseChunks(c)
  }

  function ProseChunks(c: Choice): seq<StreamChunk> {
    (if c.reasoning != "" then [Reasoning(c.reasoning)] else [])
    + ((if c.content != "" then [Text(c.content)] else [])
       + if c.finish != "" then [Done(c.finish)] else [])
  }

  /** Usage rides a frame that may have no choices, so it is read first. */
  function FrameChunks(codec: Codec, f: Frame): seq<StreamChunk> {
    (if f.usage.Some? then [Usage(f.usage.value)] else [])
    + if f.choices == [] then [] else DeltaChunks(codec, f.choices[0])
  }

  /** How the reader's input ends once its lines are exhausted. */
  function Exhausted(broken: Option<string>): seq<StreamChunk> {
    if broken.Some? then [Error("stream_broken", broken.value)]
    else [Error("stream_truncated", "no [DONE]")]
  }

  /** At the sentinel only a read error the scanner already holds is still reported. */
  function AtSentinel(broken: Option<string>): seq<StreamChunk> {
    if broken.Some? then [Error("stream_broken", broken.value)] else []
  }

  /** What the lines make the reader send; `broken` is the scanner's error when its loop is left. */
  function Scanned(codec: Codec, lines: seq<string>, broken: Option<string>): seq<StreamChunk> {
    if lines == [] then Exhausted(broken)
    else
      match Classify(codec, lines[0])
      case Ignored => Scanned(codec, lines[1..], broken)
      case Sentinel => AtSentinel(broken)
      case Malformed => [Error("malformed_frame", lines[0])]
      case Failed(e) => [Error(e.code, e.message)]
      case Data(f) => FrameChunks(codec, f) + Scanned(codec, lines[1..], broken)
  }

  // ---- by what the lines carry ----------------------------------------------------------------

  /**
   * The same, by what each line carries. A line without a payload is passed over. The payload `[DONE]`
   * ends the reading; one that does not decode is reported and ends it, and so does a frame with an
   * error of its own; any other frame is sent.
   */
  ghost function Read(codec: Codec, lines: seq<string>, broken: Option<string>): seq<StreamChunk> {
    if lines == [] then
      [if broken.Some? then Error("stream_broken", broken.value) else Error("stream_truncated", "no [DONE]")]
    else
      match Payload(lines[0])
      case None => Read(codec, lines[1..], broken)
      case Some(p) =>
        if p == "[DONE]" then if broken.Some? then [Error("stream_broken", broken.value)] else []
        else
          match codec.decode(p)
          case None => [Error("malformed_frame", lines[0])]
          case Some(f) =>
            if f.error.Some? then [Error(f.error.value.code, f.error.value.message)]
            else FrameChunks(codec, f) + Read(codec, lines[1..], broken)
  }

  /** What one line is, by what it carries. */
  lemma LineIs(codec: Codec, line: string)
    ensures Classify(codec, line) ==
            match Payload(line)
            case None => Ignored
            case Some(p) =>
              if p == "[DONE]" then Sentinel
              else if codec.decode(p).None? then Malformed
              else if codec.decode(p).value.error.Some? then Failed(codec.decode(p).value.error.value)
              else Data(codec.decode(p).value)
  {
    PayloadIsTrimmed(line);
  }

  lemma {:induction false} ScannedIsRead(codec: Codec, lines: seq<string>, broken: Option<string>)
    ensures Scanned(codec, lines, broken) == Read(codec, lines, broken)
  {
    if lines != [] {
      LineIs(codec, lines[0]);
      ScannedIsRead(codec, lines[1..], broken);
    }
  }

  /** A `data:` line with any blanks around its parts. */
  lemma DataLineReads(codec: Codec, u: string, v: string, p: string, w: string,
                      rest: seq<string>, broken: Option<string>)
    requires Blank(u) && Blank(v) && Blank(w) && Solid(p)
    ensures var line := u + ("data:" + (v + (p + w))); var chunks := Read(codec, [line] + rest, broken);
      if p == "[DONE]" then chunks == if broken.Some? then [Error("stream_broken", broken.value)] else []
      else
        match codec.decode(p)
        case None => chunks == [Error("malformed_frame", line)]
        case Some(f) =>
          chunks == if f.error.Some? then [Error(f.error.value.code, f.error.value.message)]
                    else FrameChunks(codec, f) + Read(codec, rest, broken)
  {
    var line := u + ("data:" + (v + (p + w)));
    assert Spelled(line, u, v, p, w);
    PayloadIs(line, p);
    assert ([line] + rest)[1..] == rest;
  }

  /** Any other line says nothing. */
  lemma OtherLineIsPassedOver(codec: Codec, line: string, rest: seq<string>, broken: Option<string>)
    requires forall u, v, p, w :: !Spelled(line, u, v, p, w)
    ensures Read(codec, [line] + rest, broken) == Read(codec, rest, broken)
  {
    assert ([line] + rest)[1..] == rest;
  }

  // ---- the reader -----------------------------------------------------------------------------

  /** The channel the reader sends to; nobody cancels, so every send succeeds. */
  class Channel {
    var received: seq<StreamChunk>

    constructor ()
      ensures received == []
    {
      received := [];
    }

    method Send(c: StreamChunk) returns (delivered: bool)
      modifies this
      ensures received == old(received) + [c] && delivered
    {
      received := received + [c];
      delivered := true;
    }
  }

  /** The place of the first call whose arguments are not complete JSON, the end when all are. */
  predicate FirstRefused(codec: Codec, calls: seq<ToolCall>, k: nat) {
    && k <= |calls| && (forall i :: 0 <= i < k ==> codec.valid(calls[i].arguments))
    && (k < |calls| ==> !codec.valid(calls[k].arguments))
  }

  /** A delta sent up to its call k: a refusal there, or, past them all, what else it holds. */
  function Emitted(d: Choice, k: nat): seq<StreamChunk>
    requires k <= |d.toolCalls|
  {
    seq(k, i requires 0 <= i < k => Call(d.toolCalls[i])) +
    if k < |d.toolCalls| then [Error("tool_call_incomplete", d.toolCalls[k].name)]
    else
      (if d.reasoning == "" then [] else [Reasoning(d.reasoning)])
      + (if d.content == "" then [] else [Text(d.content)])
      + (if d.finish == "" then [] else [Done(d.finish)])
  }

  lemma {:induction false} CallsUpTo(codec: Codec, calls: seq<ToolCall>, k: nat)
    requires FirstRefused(codec, calls, k)
    ensures CallChunks(codec, calls) ==
            seq(k, i requires 0 <= i < k => Call(calls[i])) +
            if k < |calls| then [Error("tool_call_incomplete", calls[k].name)] else []
  {
    if k > 0 {
      assert forall i :: 0 <= i < |calls| - 1 ==> calls[1..][i] == calls[i + 1];
      CallsUpTo(codec, calls[1..], k - 1);
    }
  }

  lemma DeltaIsEmitted(codec: Codec, d: Choice, k: nat)
    requires FirstRefused(codec, d.toolCalls, k)
    ensures DeltaChunks(codec, d) == Emitted(d, k)
  {
    CallsUpTo(codec, d.toolCalls, k);
    var calls := seq(k, i requires 0 <= i < k => Call(d.toolCalls[i]));
    assert AllValid(codec, d.toolCalls) <==> k == |d.toolCalls|;
    assert calls + [] == calls;
  }

  method EmitDelta(codec: Codec, f: Frame, out: Channel) returns (more: bool)
    requires f.choices != []
    modifies out
    ensures more && out.received == old(out.received) + DeltaChunks(codec, f.choices[0])
    ensures forall k :: FirstRefused(codec, f.choices[0].toolCalls, k) ==>
      out.received == old(out.received) + Emitted(f.choices[0], k)
  {
    forall k | FirstRefused(codec, f.choices[0].toolCalls, k)
      ensures DeltaChunks(codec, f.choices[0]) == Emitted(f.choices[0], k)
    {
      DeltaIsEmitted(codec, f.choices[0], k);
    }
    var d := f.choices[0];
    for i := 0 to |d.toolCalls|
      invariant AllValid(codec, d.toolCalls[..i])
      invariant out.received + CallChunks(codec, d.toolCalls[i..]) ==
                old(out.received) + CallChunks(codec, d.toolCalls)
    {
      var tc := d.toolCalls[i];
      assert d.toolCalls[i..][1..] == d.toolCalls[i + 1..];
      if !codec.valid(tc.arguments) {
        more := out.Send(Error(INCOMPLETE, tc.name));
        return;
      }
      more := out.Send(Call(tc));
    }
    assert d.toolCalls[..|d.toolCalls|] == d.toolCalls && CallChunks(codec, d.toolCalls[|d.toolCalls|..]) == [];
    assert out.received + [] == out.received;
    more := EmitProse(d, out);
    assert out.received == old(out.received) + (CallChunks(codec, d.toolCalls) + ProseChunks(d));
  }

  /** Reasoning, then text, then the finish reason, each only when the delta carries it. */
  method EmitProse(d: Choice, out: Channel) returns (more: bool)
    modifies out
    ensures more && out.received == old(out.received) + ProseChunks(d)
  {
    more := true;
    if d.reasoning != "" {
      more := out.Send(Reasoning(d.reasoning));
    }
    if d.content != "" {
      more := out.Send(Text(d.content));
    }
    if d.finish != "" {
      more := out.Send(Done(d.finish));
    }
  }

  method EmitFrame(codec: Codec, f: Frame, out: Channel) returns (more: bool)
    modifies out
    ensures more && out.received == old(out.received) + FrameChunks(codec, f)
  {
    more := true;
    if f.usage.Some? {
      more := out.Send(Usage(f.usage.value));
    }
    if f.choices != [] {
      more := EmitDelta(codec, f, out);
    }
  }

  /** What one line makes the reader send. */
  function LineChunks(codec: Codec, raw: string): seq<StreamChunk> {
    match Classify(codec, raw)
    case Malformed => [Error("malformed_frame", raw)]
    case Failed(e) => [Error(e.code, e.message)]
    case Data(f) => FrameChunks(codec, f)
    case _ => []
  }

  /** What is sent once that line has been dealt with. */
  function AfterLine(codec: Codec, lines: seq<string>, i: nat, broken: Option<string>): seq<StreamChunk>
    requires i < |lines|
  {
    match Classify(codec, lines[i])
    case Sentinel => AtSentinel(broken)
    case Malformed => []
    case Failed(_) => []
    case _ => Scanned(codec, lines[i + 1..], broken)
  }

  lemma ScannedStep(codec: Codec, lines: seq<string>, i: nat, broken: Option<string>)
    requires i < |lines|
    ensures Scanned(codec, lines[i..], broken) == LineChunks(codec, lines[i]) + AfterLine(codec, lines, i, broken)
  {
    assert lines[i..][1..] == lines[i + 1..];
  }

  /** Whether the reader goes on, and whether this was the sentinel; neither means it gave up. */
  method ReadLine(codec: Codec, raw: string, out: Channel) returns (more: bool, done: bool)
    modifies out
    ensures out.received == old(out.received) + LineChunks(codec, raw)
    ensures done == Classify(codec, raw).Sentinel?
    ensures more == (Classify(codec, raw).Ignored? || Classify(codec, raw).Data?)
  {
    more, done := true, false;
    match Classify(codec, raw) {
      case Ignored =>
      case Sentinel => more, done := false, true;
      case Malformed =>
        more := out.Send(Error("malformed_frame", raw));
        more := false;
      case Failed(e) =>
        more := out.Send(Error(e.code, e.message));
        more := false;
      case Data(f) => more := EmitFrame(codec, f, out);
    }
  }

  method ScanSSE(codec: Codec, lines: seq<string>, broken: Option<string>, out: Channel)
    modifies out
    ensures out.received == old(out.received) + Scanned(codec, lines, broken)
    ensures out.received == old(out.received) + Read(codec, lines, broken)
  {
    ScannedIsRead(codec, lines, broken);
    var sawDone := false;
    for i := 0 to |lines|
      invariant !sawDone
      invariant out.received + Scanned(codec, lines[i..], broken) == old(out.received) + Scanned(codec, lines, broken)
    {
      ScannedStep(codec, lines, i, broken);
      Reassociate(out.received, LineChunks(codec, lines[i]), AfterLine(codec, lines, i, broken));
      var more, done := ReadLine(codec, lines[i], out);
      if done {
        sawDone := true;
        break;
      }
      if !more {
        assert out.received + [] == out.received;
        return;
      }
    }
    assert lines[|lines|..] == [];
    AfterLoop(sawDone, broken, out);
  }

  /** The scanner's error comes first, sentinel or not; only then is a missing sentinel a truncation. */
  method AfterLoop(sawDone: bool, broken: Option<string>, out: Channel)
    modifies out
    ensures out.received == old(out.received) + if sawDone then AtSentinel(broken) else Exhausted(broken)
  {
    if broken.Some? {
      var _ := out.Send(Error("stream_broken", broken.value));
      return;
    }
    if !sawDone {
      var _ := out.Send(Error("stream_truncated", "no [DONE]"));
    }
  }
}
