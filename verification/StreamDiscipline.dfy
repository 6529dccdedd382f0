/** When a stream, as the runner hears it, ends exactly once and last; and what it carries then. */
module StreamDiscipline {
  import opened Wrappers
  import opened Conversation
  import opened LoopMachine
  import opened Stream
  import opened Drive
  import opened DriveConversation

  // ---- what is read of the lines --------------------------------------------------------------

  /** The frames read before the reader stops. */
  function FramesRead(codec: Codec, lines: seq<string>): seq<Frame> {
    if lines == [] then []
    else
      match Classify(codec, lines[0])
      case Ignored => FramesRead(codec, lines[1..])
      case Data(f) => [f] + FramesRead(codec, lines[1..])
      case _ => []
  }

  /** The reader stops at the sentinel rather than at an error or the end of the input. */
  predicate CleanEnd(codec: Codec, lines: seq<string>) {
    lines != [] &&
    var c := Classify(codec, lines[0]);
    c.Sentinel? || ((c.Ignored? || c.Data?) && CleanEnd(codec, lines[1..]))
  }

  /** The sentinel came and the scanner holds no read error, so nothing is sent after the frames. */
  predicate Complete(codec: Codec, lines: seq<string>, broken: Option<string>) {
    CleanEnd(codec, lines) && broken.None?
  }

  /** The frame ends the turn: it carries a finish reason, or a call that has to be refused. */
  predicate Ending(codec: Codec, f: Frame) {
    f.choices != [] && (f.choices[0].finish != "" || !AllValid(codec, f.choices[0].toolCalls))
  }

  /** The frame says nothing the loop hears. */
  predicate Silent(f: Frame) {
    f.choices == [] ||
    (f.choices[0].toolCalls == [] && f.choices[0].reasoning == "" && f.choices[0].content == "" &&
      f.choices[0].finish == "")
  }

  /** After a frame that ends the turn come only silent ones. */
  predicate Tidy(codec: Codec, body: seq<Frame>) {
    forall i, j :: 0 <= i < j < |body| && Ending(codec, body[i]) ==> Silent(body[j])
  }

  predicate Unended(codec: Codec, body: seq<Frame>) {
    forall i :: 0 <= i < |body| ==> !Ending(codec, body[i])
  }

  // ---- from lines to events -------------------------------------------------------------------

  function FrameEvents(codec: Codec, f: Frame): seq<Event> { EventsOf(FrameChunks(codec, f)) }

  function BodyEvents(codec: Codec, body: seq<Frame>): seq<Event> {
    if body == [] then [] else FrameEvents(codec, body[0]) + BodyEvents(codec, body[1..])
  }

  lemma {:induction false} EventsConcat(a: seq<StreamChunk>, b: seq<StreamChunk>)
    ensures EventsOf(a + b) == EventsOf(a) + EventsOf(b)
  {
    if b == [] {
      assert a + b == a;
    } else {
      assert (a + b)[..|a + b| - 1] == a + b[..|b| - 1];
      EventsConcat(a, b[..|b| - 1]);
      Reassociate(EventsOf(a), EventsOf(b[..|b| - 1]), EventOf(b[|b| - 1]));
    }
  }

  lemma EventsOne(c: StreamChunk)
    ensures EventsOf([c]) == EventOf(c)
  {
    assert [c][..0] == [];
  }

  function BodyChunks(codec: Codec, body: seq<Frame>): seq<StreamChunk> {
    if body == [] then [] else FrameChunks(codec, body[0]) + BodyChunks(codec, body[1..])
  }

  lemma {:induction false} BodyChunkEvents(codec: Codec, body: seq<Frame>)
    ensures EventsOf(BodyChunks(codec, body)) == BodyEvents(codec, body)
  {
    if body != [] {
      BodyChunkEvents(codec, body[1..]);
      EventsConcat(FrameChunks(codec, body[0]), BodyChunks(codec, body[1..]));
    }
  }

  /** What is sent after the last frame: nothing when the stream is complete, otherwise one error. */
  function LastChunk(codec: Codec, lines: seq<string>, broken: Option<string>): seq<StreamChunk>
    ensures var last := LastChunk(codec, lines, broken);
      if Complete(codec, lines, broken) then last == [] else |last| == 1 && last[0].Error?
  {
    if lines == [] then Exhausted(broken)
    else
      match Classify(codec, lines[0])
      case Sentinel => AtSentinel(broken)
      case Malformed => [Error("malformed_frame", lines[0])]
      case Failed(e) => [Error(e.code, e.message)]
      case _ => LastChunk(codec, lines[1..], broken)
  }

  lemma {:induction false} ScannedSplits(codec: Codec, lines: seq<string>, broken: Option<string>)
    ensures Scanned(codec, lines, broken) ==
            BodyChunks(codec, FramesRead(codec, lines)) + LastChunk(codec, lines, broken)
    decreases |lines|
  {
    if lines != [] {
      var c := Classify(codec, lines[0]);
      if c.Ignored? {
        ScannedSplits(codec, lines[1..], broken);
      } else if c.Data? {
        ScannedSplits(codec, lines[1..], broken);
        assert FramesRead(codec, lines) == [c.frame] + FramesRead(codec, lines[1..]);
        assert ([c.frame] + FramesRead(codec, lines[1..]))[1..] == FramesRead(codec, lines[1..]);
      }
    }
  }

  lemma ScannedEvents(codec: Codec, lines: seq<string>, broken: Option<string>)
    ensures var es := EventsOf(Scanned(codec, lines, broken)); var body := BodyEvents(codec, FramesRead(codec, lines));
      if Complete(codec, lines, broken) then es == body
      else exists e :: es == body + [e] && e.ModelError?
  {
    var chunks, last := BodyChunks(codec, FramesRead(codec, lines)), LastChunk(codec, lines, broken);
    ScannedSplits(codec, lines, broken);
    BodyChunkEvents(codec, FramesRead(codec, lines));
    EventsConcat(chunks, last);
    if Complete(codec, lines, broken) {
      assert chunks + last == chunks;
    } else {
      EventsOne(last[0]);
      assert EventsOf(last) == [ModelError(Reported(last[0].code + ": " + last[0].message))];
    }
  }

  // ---- the shape of one frame -----------------------------------------------------------------

  predicate Narrates(es: seq<Event>) { forall i :: 0 <= i < |es| ==> Narration(es[i]) }

  lemma NarrationThen(a: seq<Event>, b: seq<Event>)
    requires Narrates(a)
    ensures Narrates(a + b) <==> Narrates(b)
    ensures b != [] ==> (Disciplined(a + b) <==> Disciplined(b))
  {
    assert (a + b)[|a|..] == b;
    if Narrates(a + b) {
      forall i | 0 <= i < |b|
        ensures Narration(b[i])
      {
        assert (a + b)[|a| + i] == b[i];
      }
    }
    if b != [] && Disciplined(a + b) {
      forall i | 0 <= i < |b| - 1
        ensures Narration(b[i])
      {
        assert (a + b)[|a| + i] == b[i];
      }
    }
  }

  /** Nothing may follow events that have already ended the turn. */
  lemma EndedThen(a: seq<Event>, b: seq<Event>)
    requires Disciplined(a)
    ensures !Narrates(a + b)
    ensures Disciplined(a + b) <==> b == []
  {
    assert (a + b)[|a| - 1] == a[|a| - 1];
    if b == [] {
      assert a + b == a;
    }
  }

  lemma {:induction false} CallEvents(codec: Codec, calls: seq<ToolCall>)
    ensures var es := EventsOf(CallChunks(codec, calls));
      && (AllValid(codec, calls) ==> Narrates(es) && |es| == |calls|)
      && (!AllValid(codec, calls) ==> Disciplined(es))
  {
    if calls != [] {
      if codec.valid(calls[0].arguments) {
        CallEvents(codec, calls[1..]);
        AllValidHead(codec, calls);
        CallEventsCons(codec, calls);
        NarrationThen([ModelToolCall(Some(calls[0]))], EventsOf(CallChunks(codec, calls[1..])));
      } else {
        EventsOne(Error(INCOMPLETE, calls[0].name));
      }
    }
  }

  lemma CallEventsCons(codec: Codec, calls: seq<ToolCall>)
    requires calls != [] && codec.valid(calls[0].arguments)
    ensures EventsOf(CallChunks(codec, calls)) ==
            [ModelToolCall(Some(calls[0]))] + EventsOf(CallChunks(codec, calls[1..]))
  {
    EventsConcat([Call(calls[0])], CallChunks(codec, calls[1..]));
    EventsOne(Call(calls[0]));
  }

  lemma AllValidHead(codec: Codec, calls: seq<ToolCall>)
    requires calls != [] && codec.valid(calls[0].arguments)
    ensures AllValid(codec, calls) <==> AllValid(codec, calls[1..])
  {
    if AllValid(codec, calls[1..]) {
      forall i | 0 <= i < |calls|
        ensures codec.valid(calls[i].arguments)
      {
        if i > 0 {
          assert calls[i] == calls[1..][i - 1];
        }
      }
    }
  }

  /** The narration in a choice's reasoning and text. */
  function Spoken(c: Choice): seq<Event> {
    (if c.reasoning != "" then [ModelReasoning(c.reasoning)] else []) +
    (if c.content != "" then [ModelText(c.content)] else [])
  }

  lemma ProseIsSpoken(c: Choice)
    ensures EventsOf(ProseChunks(c)) == Spoken(c) + if c.finish != "" then [ModelDone(c.finish)] else []
  {
    var r := if c.reasoning != "" then [Reasoning(c.reasoning)] else [];
    var t := if c.content != "" then [Text(c.content)] else [];
    var d := if c.finish != "" then [Done(c.finish)] else [];
    EventsConcat(r + t, d);
    EventsConcat(r, t);
    EventsOne(Reasoning(c.reasoning));
    EventsOne(Text(c.content));
    EventsOne(Done(c.finish));
    Reassociate(r, t, d);
  }

  lemma ProseEvents(c: Choice)
    ensures var es := EventsOf(ProseChunks(c));
      && (c.finish == "" ==> Narrates(es) && (es == [] <==> c.reasoning == "" && c.content == ""))
      && (c.finish != "" ==> Disciplined(es) && es[|es| - 1] == ModelDone(c.finish))
  {
    hide EventsOf, ProseChunks;
    ProseIsSpoken(c);
    if c.finish != "" {
      NarrationThen(Spoken(c), [ModelDone(c.finish)]);
    }
  }

  lemma FrameShape(codec: Codec, f: Frame)
    ensures var es := FrameEvents(codec, f);
      && (Ending(codec, f) ==> Disciplined(es))
      && (!Ending(codec, f) ==> Narrates(es))
      && (es == [] <==> Silent(f))
  {
    FrameIsDelta(codec, f);
    if f.choices != [] {
      var c := f.choices[0];
      CallEvents(codec, c.toolCalls);
      if AllValid(codec, c.toolCalls) {
        EventsConcat(CallChunks(codec, c.toolCalls), ProseChunks(c));
        ProseEvents(c);
        NarrationThen(EventsOf(CallChunks(codec, c.toolCalls)), EventsOf(ProseChunks(c)));
      }
    }
  }

  /** Usage is not an event. */
  lemma FrameIsDelta(codec: Codec, f: Frame)
    ensures FrameEvents(codec, f) == if f.choices == [] then [] else EventsOf(DeltaChunks(codec, f.choices[0]))
  {
    var u := if f.usage.Some? then [Usage(f.usage.value)] else [];
    var d := if f.choices == [] then [] else DeltaChunks(codec, f.choices[0]);
    EventsConcat(u, d);
    if f.usage.Some? {
      EventsOne(Usage(f.usage.value));
    }
  }

  // ---- the shape of a whole body --------------------------------------------------------------

  lemma {:induction false} BodyNarrates(codec: Codec, body: seq<Frame>)
    ensures Narrates(BodyEvents(codec, body)) <==> Unended(codec, body)
  {
    if body != [] {
      FrameShape(codec, body[0]);
      BodyNarrates(codec, body[1..]);
      if Ending(codec, body[0]) {
        EndedThen(FrameEvents(codec, body[0]), BodyEvents(codec, body[1..]));
      } else {
        NarrationThen(FrameEvents(codec, body[0]), BodyEvents(codec, body[1..]));
        UnendedTail(codec, body);
      }
    }
  }

  lemma UnendedTail(codec: Codec, body: seq<Frame>)
    requires body != [] && !Ending(codec, body[0])
    ensures Unended(codec, body) <==> Unended(codec, body[1..])
  {
    if Unended(codec, body[1..]) {
      forall i | 0 <= i < |body|
        ensures !Ending(codec, body[i])
      {
        if i > 0 {
          assert body[i] == body[1..][i - 1];
        }
      }
    }
  }

  lemma {:induction false} BodySilent(codec: Codec, body: seq<Frame>)
    ensures BodyEvents(codec, body) == [] <==> AllSilent(body)
  {
    if body != [] {
      FrameShape(codec, body[0]);
      BodySilent(codec, body[1..]);
      AllSilentTail(body);
    }
  }

  predicate AllSilent(body: seq<Frame>) { forall i :: 0 <= i < |body| ==> Silent(body[i]) }

  lemma AllSilentTail(body: seq<Frame>)
    requires body != []
    ensures AllSilent(body) <==> Silent(body[0]) && AllSilent(body[1..])
  {
    if Silent(body[0]) && AllSilent(body[1..]) {
      forall i | 0 <= i < |body|
        ensures Silent(body[i])
      {
        if i > 0 {
          assert body[i] == body[1..][i - 1];
        }
      }
    }
  }

  lemma {:induction false} BodyDisciplined(codec: Codec, body: seq<Frame>)
    requires !Unended(codec, body)
    ensures Disciplined(BodyEvents(codec, body)) <==> Tidy(codec, body)
  {
    FrameShape(codec, body[0]);
    var head, rest := FrameEvents(codec, body[0]), BodyEvents(codec, body[1..]);
    if Ending(codec, body[0]) {
      EndedThen(head, rest);
      BodySilent(codec, body[1..]);
      TidyAfterEnding(codec, body);
    } else {
      UnendedTail(codec, body);
      BodyDisciplined(codec, body[1..]);
      BodyNarrates(codec, body[1..]);
      NarrationThen(head, rest);
      TidyTail(codec, body);
    }
  }

  lemma TidyAfterEnding(codec: Codec, body: seq<Frame>)
    requires body != [] && Ending(codec, body[0])
    ensures Tidy(codec, body) <==> AllSilent(body[1..])
  {
    if AllSilent(body[1..]) {
      forall i, j | 0 <= i < j < |body| && Ending(codec, body[i])
        ensures Silent(body[j])
      {
        assert body[j] == body[1..][j - 1];
      }
    }
    if Tidy(codec, body) {
      forall i | 0 <= i < |body[1..]|
        ensures Silent(body[1..][i])
      {
        assert body[1..][i] == body[i + 1];
      }
    }
  }

  lemma TidyTail(codec: Codec, body: seq<Frame>)
    requires body != [] && !Ending(codec, body[0])
    ensures Tidy(codec, body) <==> Tidy(codec, body[1..])
  {
    var tail := body[1..];
    if Tidy(codec, tail) {
      forall i, j | 0 <= i < j < |body| && Ending(codec, body[i])
        ensures Silent(body[j])
      {
        assert body[i] == tail[i - 1] && body[j] == tail[j - 1];
      }
    }
    if Tidy(codec, body) {
      forall i, j | 0 <= i < j < |tail| && Ending(codec, tail[i])
        ensures Silent(tail[j])
      {
        assert tail[i] == body[i + 1] && tail[j] == body[j + 1];
      }
    }
  }

  // ---- the exact condition --------------------------------------------------------------------

  lemma NoTerminalIff(es: seq<Event>)
    requires Narrates(es)
    ensures !EndsTheTurn(es)
  {
  }

  lemma DisciplinedEnds(es: seq<Event>)
    requires Disciplined(es)
    ensures EndsTheTurn(es)
  {
    assert Terminal(es[|es| - 1]);
  }

  /**
   * The runner hears exactly one terminal event, and hears it last, if and only if: a stream that
   * reached its sentinel without a read error said nothing after a frame that ended the turn, and any
   * other (cut, malformed, refused, or broken while its last lines were still buffered) had not ended
   * the turn before.
   */
  lemma HeardDisciplinedIff(codec: Codec, lines: seq<string>, broken: Option<string>)
    ensures Disciplined(Heard(Streamed(Scanned(codec, lines, broken)))) <==>
            if Complete(codec, lines, broken) then Tidy(codec, FramesRead(codec, lines))
            else Unended(codec, FramesRead(codec, lines))
  {
    ScannedEvents(codec, lines, broken);
    var es := EventsOf(Scanned(codec, lines, broken));
    if Complete(codec, lines, broken) {
      CleanDisciplinedIff(codec, FramesRead(codec, lines));
    } else {
      BodyNarrates(codec, FramesRead(codec, lines));
      var e :| es == BodyEvents(codec, FramesRead(codec, lines)) + [e] && e.ModelError?;
      ErrorLast(BodyEvents(codec, FramesRead(codec, lines)), e);
      assert es + [] == es;
    }
  }

  lemma ErrorLast(events: seq<Event>, e: Event)
    requires e.ModelError?
    ensures EndsTheTurn(events + [e]) && (Disciplined(events + [e]) <==> Narrates(events))
  {
    var es := events + [e];
    assert Terminal(es[|events|]);
    if Disciplined(es) {
      forall i | 0 <= i < |events|
        ensures Narration(events[i])
      {
        assert es[i] == events[i];
      }
    }
  }

  lemma CleanDisciplinedIff(codec: Codec, body: seq<Frame>)
    ensures var es := BodyEvents(codec, body);
      Disciplined(es + if EndsTheTurn(es) then [] else [ModelDone("incomplete")]) <==> Tidy(codec, body)
  {
    var es := BodyEvents(codec, body);
    if Unended(codec, body) {
      BodyNarrates(codec, body);
      NoTerminalIff(es);
      NarrationThen(es, [ModelDone("incomplete")]);
    } else {
      BodyDisciplined(codec, body);
      EndsWhenNotNarrating(codec, body);
      assert es + [] == es;
    }
  }

  lemma {:induction false} EndsWhenNotNarrating(codec: Codec, body: seq<Frame>)
    requires !Unended(codec, body)
    ensures EndsTheTurn(BodyEvents(codec, body))
  {
    FrameShape(codec, body[0]);
    if Ending(codec, body[0]) {
      DisciplinedEnds(FrameEvents(codec, body[0]));
    } else {
      UnendedTail(codec, body);
      EndsWhenNotNarrating(codec, body[1..]);
    }
    EndsInEither(FrameEvents(codec, body[0]), BodyEvents(codec, body[1..]));
  }

  lemma EndsInEither(a: seq<Event>, b: seq<Event>)
    ensures EndsTheTurn(a) || EndsTheTurn(b) ==> EndsTheTurn(a + b)
  {
    if EndsTheTurn(a) {
      var i :| 0 <= i < |a| && Terminal(a[i]);
      assert (a + b)[i] == a[i];
    } else if EndsTheTurn(b) {
      var i :| 0 <= i < |b| && Terminal(b[i]);
      assert (a + b)[|a| + i] == b[i];
    }
  }
}
